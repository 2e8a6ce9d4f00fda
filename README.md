# CkDsaParameterGenParam: a verified model of the platform-dispatching facade

Pkcs11Interop exposes the PKCS#11 parameters of the DSA parameter-generation mechanisms
(CKM_DSA_PROBABLISTIC_PARAMETER_GEN, CKM_DSA_SHAWE_TAYLOR_PARAMETER_GEN,
CKM_DSA_FIPS_G_GEN) through one platform-independent class, `CkDsaParameterGenParam`.
The class holds four fields, one for each ABI variant of the native structure:
a 4- or 8-byte unmanaged `long`, combined with natural or tight structure packing.
Its constructor creates exactly one variant, chosen by the platform profile. On a 4-byte
profile it first narrows the 64-bit hash and index with a checked conversion that
raises an overflow. `Seed` and `ToMarshalableStructure()` forward to the variant the
constructor created. `Dispose()`, `Dispose(bool)` and the finalizer form a two-state
machine {live, disposed}.

The project has three modules:

- `NativeTypes` (native_types.dfy) holds the fixed-width unsigned types, the error kinds
  and the checked conversion `ToUInt32` (`Convert.ToUInt32`).
- `DsaParamSpec` (dsa_param_spec.dfy) is the facade as a state machine on values. It
  covers variant selection (`Select`), construction (`Construct`), the accessors'
  dispatch (`Dispatch`, `SeedOf`, `MarshalOf`) and disposal (`AfterDispose`). It also
  defines sequences of calls (`Run`, `Replies`) and proves lemmas about a facade's
  whole life.
- `MechanismParams` (mechanism_params.dfy) holds the classes. `NativeDsaParameterGenParam`
  stands for the four platform-specific classes: it holds hash, seed and index, and a
  ghost counter of its `Dispose` calls. `CkDsaParameterGenParam` is the facade, with
  `disposed` and `params40/41/80/81` as fields. Each of its methods is proved against
  the spec functions through `Abstract()`.

The platform profile (`Platform.UnmanagedLongSize`, `Platform.StructPackingSize`) is an
immutable `const platform` of the facade. Every method branches on it with the source's
own conditions, and the proofs show that these conditions pick the same variant as the
constructor. A null-field dereference is modelled as the error `NullReference`, and the
proofs show it never happens. The variant class lets its accessors be called only while
it is not disposed. So the facade's proofs also show that it never touches a disposed
variant.

Two points about the code that the model keeps as written:

- Any `long` size other than 4 takes the 8-byte variants (the `else` branches at lines
  89, 69 and 111); the size is not restricted to {4, 8}.
- `_disposed` is a plain `bool`, checked and then set, so disposal is not safe under a
  race; the model is sequential and gives no guarantee under concurrent disposal.

## Model

| member | source | states |
|---|---|---|
| `NativeTypes.ToUInt32` | src/Pkcs11Interop/Pkcs11Interop/HighLevelAPI/MechanismParams/CkDsaParameterGenParam.cs:85-87 | the checked narrowing succeeds exactly when the value is at most 0xFFFFFFFF, keeps the value when it succeeds, and otherwise raises Overflow |
| `DsaParamSpec.Select` | src/Pkcs11Interop/Pkcs11Interop/HighLevelAPI/MechanismParams/CkDsaParameterGenParam.cs:82-95 | the chosen variant has a 4-byte long exactly when the platform's long size is 4, and is packed exactly when the packing size is not 0, so the choice is 40, 41, 80 or 81 as the profile dictates |
| `DsaParamSpec.Construct` | src/Pkcs11Interop/Pkcs11Interop/HighLevelAPI/MechanismParams/CkDsaParameterGenParam.cs:80-96 | construction fails, with Overflow only, exactly when the profile's long is 4 bytes and hash or index exceeds 0xFFFFFFFF; otherwise the facade is live, holds only the selected variant with the caller's hash, seed and index unchanged, and satisfies the invariant; an 8-byte profile never fails |
| `DsaParamSpec.Dispatch` | src/Pkcs11Interop/Pkcs11Interop/HighLevelAPI/MechanismParams/CkDsaParameterGenParam.cs:64-70 | an accessor refuses with ObjectDisposed after disposal and otherwise reads the field `Select` names; on any facade satisfying the invariant it succeeds exactly when the facade is live, so it never reads a null field |
| `DsaParamSpec.SeedOf` | src/Pkcs11Interop/Pkcs11Interop/HighLevelAPI/MechanismParams/CkDsaParameterGenParam.cs:60-72 | `Seed` fails with ObjectDisposed after disposal; on a live facade it returns the seed the selected variant recorded |
| `DsaParamSpec.MarshalOf` | src/Pkcs11Interop/Pkcs11Interop/HighLevelAPI/MechanismParams/CkDsaParameterGenParam.cs:104-113 | `ToMarshalableStructure()` fails with ObjectDisposed after disposal; on a live facade it returns the structure built from the selected variant's recorded hash, seed and index in its layout, whose hash and index fit the variant's native width and whose seed length equals the seed's |
| `DsaParamSpec.AfterDispose` | src/Pkcs11Interop/Pkcs11Interop/HighLevelAPI/MechanismParams/CkDsaParameterGenParam.cs:132-168 | disposal always leaves the facade disposed; when it was already disposed nothing changes; `Dispose(true)` counts one disposal for every populated variant and clears every field; `Dispose(false)` leaves the fields and dispose counts as they were; the invariant is kept |
| `DsaParamSpec.InvPreserved` | src/Pkcs11Interop/Pkcs11Interop/HighLevelAPI/MechanismParams/CkDsaParameterGenParam.cs:60-176 | every sequence of calls keeps the invariant: only the selected field is ever populated, and it is populated while live and disposed once exactly when cleared |
| `DsaParamSpec.DisposedIsFinal` | src/Pkcs11Interop/Pkcs11Interop/HighLevelAPI/MechanismParams/CkDsaParameterGenParam.cs:64-134 | on a disposed facade no sequence of calls changes any state, and every `Seed` or `ToMarshalableStructure()` call in it fails with ObjectDisposed |
| `DsaParamSpec.LiveReplies` | src/Pkcs11Interop/Pkcs11Interop/HighLevelAPI/MechanismParams/CkDsaParameterGenParam.cs:60-176 | on a live facade, every accessor call before the first disposing call returns the selected variant's seed or structure, and every accessor call after it fails with ObjectDisposed |
| `DsaParamSpec.LiveDisposals` | src/Pkcs11Interop/Pkcs11Interop/HighLevelAPI/MechanismParams/CkDsaParameterGenParam.cs:122-176 | on a live facade, a sequence of calls disposes the variant exactly once if its first disposing call is `Dispose()`, and never if that call is the finalizer or there is none |
| `DsaParamSpec.FacadeLifecycle` | src/Pkcs11Interop/Pkcs11Interop/HighLevelAPI/MechanismParams/CkDsaParameterGenParam.cs:80-176 | from a successful construction, for any sequence of calls: every accessor call before disposal returns the caller's seed, or the structure built from the caller's hash, seed and index in the selected layout; every accessor call after disposal fails; each variant is disposed at most once |
| `MechanismParams.CkDsaParameterGenParam.constructor` | src/Pkcs11Interop/Pkcs11Interop/HighLevelAPI/MechanismParams/CkDsaParameterGenParam.cs:80-96 | for arguments the narrowing accepts, it populates exactly the selected field with a fresh variant, and the new facade is in the state `Construct` gives |
| `MechanismParams.CkDsaParameterGenParam.Create` | src/Pkcs11Interop/Pkcs11Interop/HighLevelAPI/MechanismParams/CkDsaParameterGenParam.cs:80-96 | construction as the caller sees it: fails with Overflow exactly when `Construct` fails, and otherwise returns a fresh valid facade in the state `Construct` gives |
| `MechanismParams.CkDsaParameterGenParam.ValidIsInv` | src/Pkcs11Interop/Pkcs11Interop/HighLevelAPI/MechanismParams/CkDsaParameterGenParam.cs:35-55 | the object invariant over `_disposed`, the four variant fields and the owned variant's disposed flag and dispose count (disposed exactly when disposed once) implies the invariant of the spec state |
| `MechanismParams.CkDsaParameterGenParam.Seed` | src/Pkcs11Interop/Pkcs11Interop/HighLevelAPI/MechanismParams/CkDsaParameterGenParam.cs:60-72 | returns what `SeedOf` gives for the facade's state: ObjectDisposed exactly when disposed, otherwise the seed of the owned variant; it dereferences only a non-null, undisposed variant |
| `MechanismParams.CkDsaParameterGenParam.ToMarshalableStructure` | src/Pkcs11Interop/Pkcs11Interop/HighLevelAPI/MechanismParams/CkDsaParameterGenParam.cs:104-113 | returns what `MarshalOf` gives for the facade's state: ObjectDisposed exactly when disposed, otherwise the owned variant's structure in the selected layout |
| `MechanismParams.CkDsaParameterGenParam.Dispose` | src/Pkcs11Interop/Pkcs11Interop/HighLevelAPI/MechanismParams/CkDsaParameterGenParam.cs:122-126 | keeps the object invariant and moves the state as `AfterDispose(_, true)` does |
| `MechanismParams.CkDsaParameterGenParam.DisposeCore` | src/Pkcs11Interop/Pkcs11Interop/HighLevelAPI/MechanismParams/CkDsaParameterGenParam.cs:132-168 | `Dispose(bool)`: keeps the object invariant and moves the state as `AfterDispose` does; with `disposing` set, each non-null variant is disposed once and its field is cleared |
| `MechanismParams.CkDsaParameterGenParam.Finalize` | src/Pkcs11Interop/Pkcs11Interop/HighLevelAPI/MechanismParams/CkDsaParameterGenParam.cs:173-176 | keeps the object invariant and moves the state as `AfterDispose(_, false)` does: only the disposed flag changes |

## Left out

- The four platform-specific classes (HighLevelAPI40/41/80/81 `CkDsaParameterGenParam`) are not part of this model: their unmanaged seed buffers, their own disposal and the byte layout of the structures they marshal are not modelled. The model reduces them to one class that holds hash, seed and index, tagged with its layout and a dispose counter. The structure is a value carrying its layout, and the model has no field offsets or sizes.
- Allocation failure of the native seed buffer happens inside the variant classes and is not modelled.
- A null `seed` array: the model's seed is a sequence and is never null. How the variants treat a null array is not visible.
- The seed length field at native width: its narrowing happens inside the variants and is not modelled.
- How `Platform.UnmanagedLongSize` and `Platform.StructPackingSize` are determined is runtime introspection. The model takes the profile as a fixed input.
- `GC.SuppressFinalize` and the timing of finalization are runtime behaviour. The finalizer is modelled as one more call, `Finalize`, that runs `Dispose(false)`.
- Concurrency: `_disposed` is a plain field, and the model is sequential.
- The message of `ObjectDisposedException` (the type's full name) is not modelled; only the failure is.
- MechanismParams.CkDsaParameterGenParam.constructor: a Dafny constructor cannot raise, so it requires the arguments to pass the narrowing. `Create` models the overflow path with its `Result`.
