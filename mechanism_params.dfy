/** The platform-dispatching facade CkDsaParameterGenParam and the variant objects it
    owns, proved against the state machine of module DsaParamSpec. */
module MechanismParams {
  import opened NativeTypes
  import opened DsaParamSpec

  /** One platform-specific CkDsaParameterGenParam (the HighLevelAPI40, 41, 80 or 81
      class, told apart by `layout`), seen only as a holder of hash, seed and index
      with a dispose operation. `disposeCount` counts the calls to Dispose. */
  class NativeDsaParameterGenParam {
    const layout: Layout
    const hash: nat
    const seed: seq<byte>
    const index: nat
    var disposed: bool
    ghost var disposeCount: nat

    function Recorded(): Fields {
      Fields(hash, seed, index)
    }

    /** The numeric parameter types of the variant (uint on the 4-byte variants, ulong
        on the 8-byte ones) already bound the values. */
    constructor (layout: Layout, hash: nat, seed: seq<byte>, index: nat)
      requires FitsNative(layout, Fields(hash, seed, index))
      ensures this.layout == layout && Recorded() == Fields(hash, seed, index)
      ensures !disposed && disposeCount == 0
    {
      this.layout := layout;
      this.hash := hash;
      this.seed := seed;
      this.index := index;
      disposed := false;
      disposeCount := 0;
    }

    method Seed() returns (s: seq<byte>)
      requires !disposed
      ensures s == seed
    {
      s := seed;
    }

    method ToMarshalableStructure() returns (m: MarshalableStructure)
      requires !disposed
      ensures m == ToStructure(layout, Recorded())
    {
      m := MarshalableStructure(layout, hash, seed, |seed|, index);
    }

    method Dispose()
      modifies this
      ensures disposed && disposeCount == old(disposeCount) + 1
    {
      disposed := true;
      disposeCount := disposeCount + 1;
    }
  }

  /** The facade: exactly one of the four variant fields is set by the constructor,
      the accessors forward to it, and disposal releases it once. */
  class CkDsaParameterGenParam {
    const platform: PlatformProfile
    var disposed: bool
    var params40: NativeDsaParameterGenParam?
    var params41: NativeDsaParameterGenParam?
    var params80: NativeDsaParameterGenParam?
    var params81: NativeDsaParameterGenParam?
    /** The variant the constructor created; it stays the same after its field is cleared. */
    ghost const owned: NativeDsaParameterGenParam

    ghost function Slot(l: Layout): NativeDsaParameterGenParam?
      reads this
    {
      match l
      case Layout40 => params40
      case Layout41 => params41
      case Layout80 => params80
      case Layout81 => params81
    }

    ghost predicate Valid()
      reads this, owned
    {
      && owned.layout == Select(platform)
      && FitsNative(owned.layout, owned.Recorded())
      && (forall l :: Slot(l) == null || (Slot(l) == owned && l == owned.layout))
      && (!disposed ==> Slot(owned.layout) != null)
      && (Slot(owned.layout) != null ==> !owned.disposed && owned.disposeCount == 0)
      && (Slot(owned.layout) == null ==> owned.disposeCount == 1)
      && (owned.disposed <==> owned.disposeCount == 1)
    }

    /** The non-null variant fields, by layout, with what each records. */
    ghost function Slots(): map<Layout, Fields>
      reads this
    {
      (if params40 != null then map[Layout40 := params40.Recorded()] else map[]) +
      (if params41 != null then map[Layout41 := params41.Recorded()] else map[]) +
      (if params80 != null then map[Layout80 := params80.Recorded()] else map[]) +
      (if params81 != null then map[Layout81 := params81.Recorded()] else map[])
    }

    ghost function Abstract(): State
      reads this, owned
    {
      State(platform, disposed, Slots(), multiset{}[owned.layout := owned.disposeCount])
    }

    lemma SlotsOfValid()
      requires Valid()
      ensures Slot(owned.layout) != null ==> Slots() == map[owned.layout := owned.Recorded()]
      ensures Slot(owned.layout) == null ==> Slots() == map[]
    {
      assert Slot(Layout40) == params40 && Slot(Layout41) == params41;
      assert Slot(Layout80) == params80 && Slot(Layout81) == params81;
    }

    /** Every valid facade is in a state the specification's invariant admits. */
    lemma ValidIsInv()
      requires Valid()
      ensures Inv(Abstract())
    {
      SlotsOfValid();
      if Slot(owned.layout) == null {
        assert multiset{}[owned.layout := 1] == multiset{owned.layout};
      } else {
        assert multiset{}[owned.layout := 0] == multiset{};
      }
    }

    /** The constructor for arguments the narrowing accepts; on a 4-byte profile the
        hash and the index pass the checked 32-bit conversion. */
    constructor (platform: PlatformProfile, hash: uint64, seed: seq<byte>, index: uint64)
      requires Construct(platform, hash, seed, index).Success?
      ensures Valid() && fresh(owned)
      ensures Construct(platform, hash, seed, index) == Success(Abstract())
    {
      this.platform := platform;
      disposed := false;
      var v: NativeDsaParameterGenParam;
      if platform.unmanagedLongSize == 4 {
        var h, i := ToUInt32(hash).value, ToUInt32(index).value;
        if platform.structPackingSize == 0 {
          v := new NativeDsaParameterGenParam(Layout40, h as nat, seed, i as nat);
          params40, params41, params80, params81 := v, null, null, null;
        } else {
          v := new NativeDsaParameterGenParam(Layout41, h as nat, seed, i as nat);
          params40, params41, params80, params81 := null, v, null, null;
        }
      } else {
        if platform.structPackingSize == 0 {
          v := new NativeDsaParameterGenParam(Layout80, hash as nat, seed, index as nat);
          params40, params41, params80, params81 := null, null, v, null;
        } else {
          v := new NativeDsaParameterGenParam(Layout81, hash as nat, seed, index as nat);
          params40, params41, params80, params81 := null, null, null, v;
        }
      }
      owned := v;
      new;
      SlotsOfValid();
      assert multiset{}[owned.layout := 0] == multiset{};
    }

    /** Construction as a caller sees it: the overflow the checked conversion raises,
        or a new valid facade in the state Construct describes. */
    static method Create(platform: PlatformProfile, hash: uint64, seed: seq<byte>, index: uint64)
      returns (r: Result<CkDsaParameterGenParam>)
      ensures r.Failure? <==> Construct(platform, hash, seed, index).Failure?
      ensures r.Failure? ==> r.error == Overflow
      ensures r.Success? ==> fresh(r.value) && fresh(r.value.owned) && r.value.Valid()
      ensures r.Success? ==> Construct(platform, hash, seed, index) == Success(r.value.Abstract())
    {
      if platform.unmanagedLongSize == 4 && (hash as int > UINT32_MAX || index as int > UINT32_MAX) {
        return Failure(Overflow);
      }
      var f := new CkDsaParameterGenParam(platform, hash, seed, index);
      return Success(f);
    }

    /** The `Seed` getter: refused after disposal, otherwise the seed of the variant
        the constructor populated. */
    method Seed() returns (r: Result<seq<byte>>)
      requires Valid()
      ensures r == SeedOf(Abstract())
      ensures r.Success? <==> !disposed
      ensures r.Success? ==> r.value == owned.seed
    {
      ValidIsInv();
      SlotsOfValid();
      if disposed {
        return Failure(ObjectDisposed);
      }
      var s: seq<byte>;
      if platform.unmanagedLongSize == 4 {
        if platform.structPackingSize == 0 {
          s := params40.Seed();
        } else {
          s := params41.Seed();
        }
      } else {
        if platform.structPackingSize == 0 {
          s := params80.Seed();
        } else {
          s := params81.Seed();
        }
      }
      return Success(s);
    }

    /** `ToMarshalableStructure()`: refused after disposal, otherwise the structure of
        the variant the constructor populated. */
    method ToMarshalableStructure() returns (r: Result<MarshalableStructure>)
      requires Valid()
      ensures r == MarshalOf(Abstract())
      ensures r.Success? <==> !disposed
      ensures r.Success? ==> r.value == ToStructure(Select(platform), owned.Recorded())
    {
      ValidIsInv();
      SlotsOfValid();
      if disposed {
        return Failure(ObjectDisposed);
      }
      var m: MarshalableStructure;
      if platform.unmanagedLongSize == 4 {
        if platform.structPackingSize == 0 {
          m := params40.ToMarshalableStructure();
        } else {
          m := params41.ToMarshalableStructure();
        }
      } else {
        if platform.structPackingSize == 0 {
          m := params80.ToMarshalableStructure();
        } else {
          m := params81.ToMarshalableStructure();
        }
      }
      return Success(m);
    }

    /** `Dispose()`: the disposing path of DisposeCore. */
    method Dispose()
      requires Valid()
      modifies this, owned
      ensures Valid() && Abstract() == AfterDispose(old(Abstract()), true)
    {
      DisposeCore(true);
    }

    /** `Dispose(bool)`: does nothing once disposed; otherwise, when `disposing` is set,
        disposes each non-null variant and clears its field, and then marks the facade
        disposed. */
    method DisposeCore(disposing: bool)
      requires Valid()
      modifies this, owned
      ensures Valid() && Abstract() == AfterDispose(old(Abstract()), disposing)
    {
      SlotsOfValid();
      ghost var before, l := Abstract(), owned.layout;
      assert Slot(Layout40) == params40 && Slot(Layout41) == params41;
      assert Slot(Layout80) == params80 && Slot(Layout81) == params81;
      assert params40 != null ==> params40 == owned && l == Layout40;
      assert params41 != null ==> params41 == owned && l == Layout41;
      assert params80 != null ==> params80 == owned && l == Layout80;
      assert params81 != null ==> params81 == owned && l == Layout81;
      if !disposed {
        if disposing {
          assert before.slots.Keys == {l} && owned.disposeCount == 0;
          if params40 != null {
            params40.Dispose();
            params40 := null;
          }
          if params41 != null {
            params41.Dispose();
            params41 := null;
          }
          if params80 != null {
            params80.Dispose();
            params80 := null;
          }
          if params81 != null {
            params81.Dispose();
            params81 := null;
          }
          assert owned.disposeCount == 1;
          assert Slots() == map[];
          assert multiset{}[l := 0] + multiset({l}) == multiset{}[l := 1];
        }
        disposed := true;
      }
    }

    /** The finalizer: the non-disposing path of DisposeCore. */
    method Finalize()
      requires Valid()
      modifies this, owned
      ensures Valid() && Abstract() == AfterDispose(old(Abstract()), false)
    {
      DisposeCore(false);
    }
  }
}
