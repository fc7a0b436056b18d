# aubio-rs wrapper layer, modelled in Dafny

This project models the safe Rust wrapper that aubio-rs puts around the
aubio audio-analysis C library. It covers the wrapper objects (onset,
pitch, tempo, notes, phase vocoder, FFT, spectral descriptor, MFCC, filter
bank and resampler), the borrowed buffer views (`FVec`, `FVecMut`, `CVec`,
`CVecMut` and the norm-only and phase-only views), the `farr!`/`carr!`
macros, the error type, and the enumerations that name native methods
(onset modes, pitch modes and units, spectral shapes, window shapes,
resampler modes). It also covers the logging bridge of both revisions.

The native library is not modelled. Each wrapper object keeps a ghost
trace of the calls it has made on the native handle it owns:

- `Valid()` says the handle was created first and nothing follows its
  destructor call. So a handle is released once at most (`Native.FreedOnce`).
- Every operation states its outcome and the call it appends.
- When an operation fails a size check, it states that no native call
  was made and that the caller's buffers are untouched.
- Natively computed output is modelled as arbitrary values written only
  inside the output view's window.

Values the native layer decides are parameters of the operation: a
constructor's returned pointer, a reported hop size, a status code.

Size checking (the `check-size` feature) is the constant
`Vec.CheckSizeFeature`. The checks themselves are written against
`Vec.CheckLength(enabled, …)`, so both the checked and the unchecked
policy are stated. A `?` chain of checks is `Vec.Then`. A Rust panic
(`unwrap`, `assert!`, `panic!`) is an explicit `Panicked` outcome where
the source panics on purpose: filter-bank shapes and the log callback.

The sources come from two revisions of the crate, and the model keeps
both where they differ:

- `aubio-rs/src/types.rs` (`check_alloc`, error `Allocation`) is used
  by the old tempo object.
- `src/types.rs` (`check_init`, error `FailedInit`, `AsNativeStr`) is
  used by everything else.
- The log level enumeration, with two different `from_ffi` decoders and
  two ownership schemes.

Some behaviour the model exhibits rather than repairs:

- The onset constructor and `set_default_parameters` pass the name from
  `as_ref()` without a terminating NUL. The same holds for the old tempo
  constructor's `"default"`. A C reader finds no end of string in those
  bytes (`Onset.MethodNameUnterminated`, `LegacyTempo.MethodNameUnterminated`).
  The later revision passes a terminated native string instead. For
  `Notes.NewCall` the terminated literal is in the wrapper itself; for
  `Tempo.NewCall` it comes from the mode's `as_native_cstr`, whose
  implementation is assumed (see `Onset.NativeStr` under "Left out").
- The FFT, MFCC and phase vocoder wrappers check a spectrum's length in
  bins against the window (or buffer) size, but an `n`-sample frame has
  only `n/2 + 1` bins, which is what `carr!(n)` allocates. With the size
  check on, every even window of 4 samples or more therefore refuses the
  spectrum buffer the crate's own macro builds for it, before any native
  call (`Fft.OwnSpectrumRejected`, `Fft.RdoFrameSpectrum`,
  `Mfcc.FrameSpectrumStep`, `PVoc.DoFrameSpectrum`,
  `PVoc.RdoFrameSpectrum`).
- `Tempo::set_delay` casts a signed delay to `sint_t`, but `get_delay`
  reads it back as `uint_t`. A delay reads back unchanged exactly when it
  lies in [0, 2^32), and a negative delay comes back increased by 2^32
  (`Tempo.DelayRoundTrip`, `Tempo.NegativeDelayWraps`).
- The newer revision's `Log::set` drops the previous `Log` before it
  registers the new logger. The old `Log`'s drop resets native logging,
  so the opposite order would leave the slot holding a logger that the
  native side no longer calls (`Log.NaiveSetLosesRegistration`).
- In the older revision, dropping any `Log` resets native logging, even
  while a newer `Log` is alive (`LegacyLog.DropOlder`).

## Model

| member | source | states |
|---|---|---|
| Native.AsUint | aubio-rs/src/onset.rs:180-193 | `as ffi::uint_t` keeps the low 32 bits: below 2^32, congruent to the input, identity on values that fit |
| Native.AsSint | src/tempo.rs:237-241 | `as ffi::sint_t` gives the two's-complement value in [-2^31, 2^31), congruent to the input, identity on values that fit |
| Native.SintAsUint | aubio-rs/src/log.rs:44-55 | a signed 32-bit value read as unsigned: unchanged if non-negative, plus 2^32 if negative |
| Native.Deletes | aubio-rs/src/onset.rs:165-169 | counts destructor calls; zero exactly when the handle is live |
| Native.FreedOnce | aubio-rs/src/onset.rs:165-169 | under the ownership discipline the destructor runs at most once, and a released handle's last call is the destructor |
| Native.Append | aubio-rs/src/onset.rs:165-169 | a call on a live handle keeps the discipline, and the handle stays live unless the call is the destructor |
| Types.Message | src/types.rs:30-39 | every error has a non-empty display text |
| Types.MessageInjective | src/types.rs:30-39 | different errors display differently |
| Types.MessageTexts | src/types.rs:30-39 | `Display` prints "creation error", "data size mismatch" and "invalid argument" |
| Types.CheckInit | src/types.rs:77-83 | `check_init` fails with `FailedInit` exactly on a null pointer |
| Types.AsRustStr | src/types.rs:71-74 | `as_rust_str` drops exactly the last character of the native string |
| Types.RustStrRoundTrip | src/types.rs:59-74 | for a NUL-terminated native string, the Rust string plus NUL gives it back, and holds no NUL |
| Types.AsNativeCstr | src/types.rs:64-66 | the pointer `as_native_cstr` yields points at exactly the native string's bytes |
| Types.CStringAt | src/types.rs:55-66 | a C reader finds a string exactly when there is a NUL; the result is the NUL-free prefix before it |
| Types.NativeNameReadsAsRustName | src/types.rs:55-74 | C reads a terminated native string as its Rust string |
| LegacyTypes.Message | aubio-rs/src/types.rs:30-39 | every error of the older revision has a non-empty text |
| LegacyTypes.MessageInjective | aubio-rs/src/types.rs:30-39 | different errors display differently |
| LegacyTypes.MessageTexts | aubio-rs/src/types.rs:30-39 | `Display` prints "allocation error", "data size mismatch" and "invalid argument" |
| LegacyTypes.CheckAlloc | aubio-rs/src/types.rs:51-57 | `check_alloc` fails with `Allocation` exactly on a null pointer |
| Vec.CheckLength | aubio-rs/src/vec.rs:41-53 | checked policy: mismatch exactly when the length is below the minimum; unchecked policy: always Ok |
| Vec.Then | aubio-rs/src/fft.rs:66-79 | two `?`-joined checks: Ok iff both pass, and the first failure is the result |
| Vec.Whole | aubio-rs/src/vec.rs:102-113 | a whole array as a slice covers the array |
| Vec.FVec.From | aubio-rs/src/vec.rs:56-67 | the view borrows the data; its length is the data length cast to 32 bits |
| Vec.FVec.CheckSize | aubio-rs/src/vec.rs:41-53 | with checks on, a mismatch exactly when the view is shorter than required |
| Vec.FVecMut.From | aubio-rs/src/vec.rs:102-113 | the mutable view borrows the slice, with the 32-bit cast length, and stays inside it |
| Vec.FVecMut.CheckSize | aubio-rs/src/vec.rs:87-99 | with checks on, a mismatch exactly when the view is shorter than required |
| Vec.CVec.FromParts | aubio-rs/src/vec.rs:125-142 | with checks on, refused exactly when the halves differ in length; otherwise holds both halves and the norm's length |
| Vec.CVec.From | aubio-rs/src/vec.rs:179-185 | splits the buffer at half its length into norm and phase halves; the result is sound |
| Vec.CVec.Norm | aubio-rs/src/vec.rs:152-156 | `norm()` is the first `size()` samples of the norm half |
| Vec.CVec.Phas | aubio-rs/src/vec.rs:158-162 | `phas()` is the first `size()` samples of the phase half |
| Vec.CVec.CheckSize | aubio-rs/src/vec.rs:164-176 | with checks on, a mismatch exactly when the view is shorter than required |
| Vec.CVecMut.FromParts | aubio-rs/src/vec.rs:197-214 | with checks on, refused exactly when the halves differ; accepted views borrow both halves and are sound |
| Vec.CVecMut.From | aubio-rs/src/vec.rs:261-267 | the two halves of the slice as norm and phase |
| Vec.CVecMut.FromNorm | aubio-rs/src/vec.rs:216-225 | a view with the norm half only |
| Vec.CVecMut.FromPhas | aubio-rs/src/vec.rs:227-236 | a view with the phase half only |
| Vec.CVecMut.CheckSize | aubio-rs/src/vec.rs:246-258 | with checks on, a mismatch exactly when the view is shorter than required |
| Vec.CVecNormMut.From | aubio-rs/src/vec.rs:291-296 | the norm-only view over the slice |
| Vec.CVecPhasMut.From | aubio-rs/src/vec.rs:320-325 | the phase-only view over the slice |
| Vec.UncheckedPartsOverrun | aubio-rs/src/vec.rs:125-142 | without checks, `from_parts` accepts a shorter phase half, and `phas()` would read past it |
| Vec.CheckedViewsSound | aubio-rs/src/vec.rs:125-142 | with checks on, every view `from_parts` accepts is sound |
| Vec.SplitHalves | aubio-rs/src/vec.rs:179-185 | an even buffer gives halves of half its length, in order |
| Vec.OddSplitRefused | aubio-rs/src/vec.rs:179-185 | an odd buffer splits into halves one sample apart, which checked `from_parts` refuses |
| Vec.WriteReal | aubio-rs/src/fft.rs:84-97 | a native routine writing a real view changes nothing outside its window |
| Vec.WriteComplex | aubio-rs/src/fft.rs:66-79 | a native routine writing a complex view changes nothing outside its halves' windows |
| Vec.FillWindow | aubio-rs/src/vec.rs:102-113 | arbitrary writes confined to the first `n` samples of a slice |
| Macros.Farr | aubio-rs/src/lib.rs:80-85 | `farr!(n)`: `n` zeros |
| Macros.Carr | aubio-rs/src/lib.rs:87-92 | `carr!(n)`: `n + 2` zeros |
| Macros.NewBuffer | aubio-rs/src/lib.rs:80-92 | a fresh array holding exactly the macro's samples |
| Macros.CarrBins | aubio-rs/src/lib.rs:87-92 | for even `n`, `carr!(n)` as a complex view has `n/2 + 1` bins, with norm and phase of that length |
| Macros.CarrOdd | aubio-rs/src/lib.rs:87-92 | for odd `n`, `carr!(n)` has odd length and its halves are refused by checked `from_parts` |
| Macros.CarrBelowWindow | aubio-rs/src/lib.rs:87-92 | for even `n >= 4`, a `carr!(n)` spectrum fails a check that asks for `n` bins |
| Onset.OnsetMode.Name | aubio-rs/src/onset.rs:106-122 | each mode's name is non-empty and NUL-free |
| Onset.OnsetMode.FuncName | aubio-rs/src/onset.rs:94-98 | the spectral function name is the mode's name |
| Onset.OnsetMode.FromStr | aubio-rs/src/onset.rs:130-149 | Ok gives the mode with that name; `InvalidArg` exactly when no mode has that name |
| Onset.NameInjective | aubio-rs/src/onset.rs:106-122 | different modes have different names |
| Onset.NameRoundTrip | aubio-rs/src/onset.rs:106-149 | parsing a mode's name gives the mode back |
| Onset.DefaultModeName | aubio-rs/src/onset.rs:100-104 | the default mode is "hfc", and that name parses back to it |
| Onset.NativeStr | src/tempo.rs:30-49 | the terminated native name of a mode, whose Rust string is its name |
| Onset.NewCall | aubio-rs/src/onset.rs:180-193 | the constructor receives the unterminated name and the three sizes cast to 32 bits |
| Onset.MethodNameUnterminated | aubio-rs/src/onset.rs:180-193 | C finds no terminator in the name `new` passes, while the terminated native string would read as the name |
| Onset.Flag | aubio-rs/src/onset.rs:346-348 | `set_awhitening` sends 1 exactly when enabled, otherwise 0 |
| Onset.GetAwhitening | aubio-rs/src/onset.rs:353-359 | the flag reads as on exactly when the native value is positive |
| Onset.AwhiteningRoundTrip | aubio-rs/src/onset.rs:346-359 | a flag set and read back is the flag set |
| Onset.Param.Call | aubio-rs/src/onset.rs:364-498 | each setter makes one native call: the flag as 0/1, sample counts cast to 32 bits, other values as floats |
| Onset.Onset.New | aubio-rs/src/onset.rs:180-193 | Err(`FailedInit`) exactly on a null handle; otherwise a fresh live object whose trace is the creation call |
| Onset.Onset.GetHop | aubio-rs/src/onset.rs:318-320 | the value the native hop query reports, fixed at construction (not tied to `hop_size`; see Left out) |
| Onset.Onset.Do | aubio-rs/src/onset.rs:288-301 | input checked against the hop, then output against 1; on failure no call and no write; on success one call, writes only in the output window |
| Onset.Onset.DoResult | aubio-rs/src/onset.rs:306-313 | fails with `MismatchSize` exactly when the input is shorter than the hop; otherwise one native call |
| Onset.Onset.Set | aubio-rs/src/onset.rs:346-498 | each setter appends its native call |
| Onset.Onset.With | aubio-rs/src/onset.rs:198-273 | each builder appends the setter's call and returns the same object |
| Onset.Onset.SetDefaultParameters | aubio-rs/src/onset.rs:504-511 | appends the native call, with the mode's unterminated name |
| Onset.Onset.Reset | aubio-rs/src/onset.rs:516-518 | appends the native reset |
| Onset.Onset.Drop | aubio-rs/src/onset.rs:165-169 | appends the destructor; the handle is no longer live |
| Pitch.PitchMode.NativeStr | aubio-rs/src/pitch.rs:86-100 | each native name is NUL-terminated |
| Pitch.PitchMode.Name | aubio-rs/src/pitch.rs:102-106 | the name is the native name without its terminator |
| Pitch.PitchMode.FromStr | aubio-rs/src/pitch.rs:114-131 | Ok gives the mode with that name; `InvalidArg` exactly when no mode has it |
| Pitch.ModeNames | aubio-rs/src/pitch.rs:86-100 | the seven mode names as the source spells them |
| Pitch.UnlistedModeName | aubio-rs/src/pitch.rs:114-131 | a string outside the seven names names no mode |
| Pitch.ModeNameInjective | aubio-rs/src/pitch.rs:102-106 | different modes have different names |
| Pitch.ModeRoundTrip | aubio-rs/src/pitch.rs:102-131 | parsing a mode's name gives the mode back |
| Pitch.DefaultModeName | aubio-rs/src/pitch.rs:80-84 | the default algorithm is "yinfft", and that name parses back to it |
| Pitch.PitchUnit.NativeStr | aubio-rs/src/pitch.rs:165-176 | each native unit name is NUL-terminated |
| Pitch.PitchUnit.Name | aubio-rs/src/pitch.rs:178-182 | the unit name is the native name without its terminator |
| Pitch.PitchUnit.FromStr | aubio-rs/src/pitch.rs:190-204 | Ok gives the unit with that name; `InvalidArg` exactly when no unit has it |
| Pitch.UnitNames | aubio-rs/src/pitch.rs:165-176 | the four unit names as the source spells them |
| Pitch.UnlistedUnitName | aubio-rs/src/pitch.rs:190-204 | a string outside the four names names no unit |
| Pitch.UnitRoundTrip | aubio-rs/src/pitch.rs:178-204 | parsing a unit's name gives the unit back |
| Pitch.DefaultUnitName | aubio-rs/src/pitch.rs:159-163 | the default unit is "hertz", and that name parses back to it |
| Pitch.NewCall | aubio-rs/src/pitch.rs:229-247 | the constructor receives the terminated mode name and the three sizes cast to 32 bits |
| Pitch.Param.Call | aubio-rs/src/pitch.rs:320-356 | `set_unit` passes the terminated unit name; tolerance and silence pass floats |
| Pitch.MethodNameRead | aubio-rs/src/pitch.rs:229-247 | C reads the constructor's method argument as the mode's name |
| Pitch.UnitNameRead | aubio-rs/src/pitch.rs:352-356 | C reads `set_unit`'s argument as the unit's name |
| Pitch.Pitch.New | aubio-rs/src/pitch.rs:229-247 | Err(`FailedInit`) exactly on a null handle; otherwise a fresh live object with the creation call |
| Pitch.Pitch.GetHop | aubio-rs/src/pitch.rs:276-278 | the hop size given at creation |
| Pitch.Pitch.Do | aubio-rs/src/pitch.rs:286-301 | input checked against the hop, then output against 1; failure leaves everything untouched; success is one call confined to the output window |
| Pitch.Pitch.DoResult | aubio-rs/src/pitch.rs:308-315 | fails exactly when the input is shorter than the hop |
| Pitch.Pitch.Set | aubio-rs/src/pitch.rs:320-356 | each setter appends its native call |
| Pitch.Pitch.With | aubio-rs/src/pitch.rs:252-271 | each builder appends the setter's call and returns the same object |
| Pitch.Pitch.Drop | aubio-rs/src/pitch.rs:214-218 | appends the destructor; the handle is no longer live |
| SpecDesc.SpecShape.NativeStr | aubio-rs/src/specdesc.rs:95-109 | each native shape name is NUL-terminated |
| SpecDesc.SpecShape.Name | aubio-rs/src/specdesc.rs:111-115 | the name is the native name without its terminator |
| SpecDesc.SpecShape.FromStr | aubio-rs/src/specdesc.rs:123-140 | Ok gives the shape with that name; `InvalidArg` exactly when no shape has it |
| SpecDesc.ShapeNames | aubio-rs/src/specdesc.rs:95-109 | the seven shape names as the source spells them |
| SpecDesc.UnlistedShapeName | aubio-rs/src/specdesc.rs:123-140 | a string outside the seven names names no shape |
| SpecDesc.ShapeNameInjective | aubio-rs/src/specdesc.rs:111-115 | different shapes have different names |
| SpecDesc.ShapeRoundTrip | aubio-rs/src/specdesc.rs:111-140 | parsing a shape's name gives the shape back |
| SpecDesc.SpecMethod.NativeStr | aubio-rs/src/specdesc.rs:24 | a spectral method (shape or onset function) has a terminated native name whose Rust string is its name |
| SpecDesc.NewCall | aubio-rs/src/specdesc.rs:162-173 | the constructor receives the method's terminated native name and the size cast to 32 bits |
| SpecDesc.MethodNameRead | aubio-rs/src/specdesc.rs:162-173 | C reads the constructor's method argument as the method's name |
| SpecDesc.SpecDesc.New | aubio-rs/src/specdesc.rs:162-173 | Err(`FailedInit`) exactly on a null handle; otherwise a fresh live object with the creation call |
| SpecDesc.SpecDesc.Do | aubio-rs/src/specdesc.rs:180-198 | only the output is checked, against 1; failure leaves everything untouched; success is one call confined to the output window |
| SpecDesc.SpecDesc.DoResult | aubio-rs/src/specdesc.rs:205-212 | always succeeds with one native call, since its one-sample output passes the check |
| SpecDesc.SpecDesc.Drop | aubio-rs/src/specdesc.rs:149-153 | appends the destructor; the handle is no longer live |
| SpecDesc.TestCase | aubio-rs/src/specdesc.rs:219-264 | a `carr!(1024)` spectrum into a `farr!(1)` output succeeds for every method once creation succeeds |
| WinFunc.WindowType.NativeStr | aubio-rs/src/winfunc.rs:36-53 | each native window name is NUL-terminated |
| WinFunc.WindowType.Name | aubio-rs/src/winfunc.rs:55-59 | the name is the native name without its terminator |
| WinFunc.WindowType.FromStr | aubio-rs/src/winfunc.rs:67-87 | Ok gives the window with that name; `InvalidArg` exactly when no window has it |
| WinFunc.WindowNames | aubio-rs/src/winfunc.rs:36-53 | the ten window names as the source spells them |
| WinFunc.UnlistedWindowName | aubio-rs/src/winfunc.rs:67-87 | a string outside the ten names names no window |
| WinFunc.WindowNameInjective | aubio-rs/src/winfunc.rs:55-59 | different windows have different names |
| WinFunc.WindowRoundTrip | aubio-rs/src/winfunc.rs:55-87 | parsing a window's name gives the window back |
| WinFunc.DefaultWindowName | aubio-rs/src/winfunc.rs:30-34 | the default window is "hanningz", and that name parses back to it |
| WinFunc.WindowNameRead | aubio-rs/src/winfunc.rs:36-59 | C reads the native window name as the window's name |
| Resampler.ResampleMode.Code | aubio-rs/src/resampler.rs:96-107 | the native mode number is below 5 |
| Resampler.ResampleMode.Name | aubio-rs/src/resampler.rs:38-50 | each mode's name is non-empty and NUL-free |
| Resampler.ResampleMode.FromStr | aubio-rs/src/resampler.rs:58-73 | Ok gives the mode with that name; `InvalidArg` exactly when no mode has it |
| Resampler.CodesDistinct | aubio-rs/src/resampler.rs:22-30 | the modes are numbered 0 to 4 in declaration order, distinctly |
| Resampler.NameInjective | aubio-rs/src/resampler.rs:38-50 | different modes have different names |
| Resampler.NameRoundTrip | aubio-rs/src/resampler.rs:38-73 | parsing a mode's name gives the mode back |
| Resampler.DefaultModeName | aubio-rs/src/resampler.rs:32-36 | the default mode is best quality: code 0, named "best_quality", which parses back to it |
| Resampler.RequiredOutput | aubio-rs/src/resampler.rs:130 | the required output size is the floor of input size times ratio, and 0 when that product is negative |
| Resampler.UnitRatioKeepsLength | aubio-rs/src/resampler.rs:130 | at ratio 1 the output must be as long as the input |
| Resampler.NewCall | aubio-rs/src/resampler.rs:96-107 | the constructor receives the ratio and the mode's number |
| Resampler.Resampler.New | aubio-rs/src/resampler.rs:96-107 | Err(`FailedInit`) exactly on a null handle; otherwise a fresh live object keeping the ratio |
| Resampler.Resampler.GetRatio | aubio-rs/src/resampler.rs:112-114 | the ratio given at creation |
| Resampler.Resampler.Do | aubio-rs/src/resampler.rs:122-134 | output checked against floor(input size × ratio); failure leaves everything untouched; success is one call confined to the output window |
| Resampler.Resampler.Drop | aubio-rs/src/resampler.rs:83-87 | appends the destructor; the handle is no longer live |
| Fft.SpectrumBins | aubio-rs/src/fft.rs:59-61 | `win/2 + 1` bins: the least `n > 0` with `2(n-1) <= win < 2n` |
| Fft.NewCall | aubio-rs/src/fft.rs:41-47 | the constructor receives the window size cast to 32 bits |
| Fft.FFT.New | aubio-rs/src/fft.rs:41-47 | Err(`FailedInit`) exactly on a null handle; otherwise a fresh live object keeping the window size |
| Fft.FFT.GetWin | aubio-rs/src/fft.rs:52-54 | the window size given at creation |
| Fft.FFT.GetFft | aubio-rs/src/fft.rs:59-61 | the number of spectrum bins for the window |
| Fft.FFT.Do | aubio-rs/src/fft.rs:66-79 | input and spectrum both checked against the window size, in order; failure leaves everything untouched; success is one call confined to the spectrum's windows |
| Fft.FFT.Rdo | aubio-rs/src/fft.rs:84-97 | spectrum and output both checked against the window size, in order; same effect discipline |
| Fft.FFT.DoComplex | aubio-rs/src/fft.rs:102-115 | input and complex output checked against the window size; same effect discipline |
| Fft.FFT.RdoComplex | aubio-rs/src/fft.rs:120-133 | complex input and output checked against the window size; same effect discipline |
| Fft.FFT.Drop | aubio-rs/src/fft.rs:31-35 | appends the destructor; the handle is no longer live |
| Fft.GetSpectrum | aubio-rs/src/fft.rs:138-150 | output checked against the input size; failure writes nothing, success writes only inside the output |
| Fft.GetRealimag | aubio-rs/src/fft.rs:155-167 | output checked against the input size; failure writes nothing, success writes only inside the output |
| Fft.GetPhas | aubio-rs/src/fft.rs:172-184 | the phase-only output checked against the input size; failure writes nothing |
| Fft.GetNorm | aubio-rs/src/fft.rs:189-201 | the norm-only output checked against the input size; failure writes nothing |
| Fft.GetImag | aubio-rs/src/fft.rs:206-218 | output checked against the input size; failure writes nothing |
| Fft.GetReal | aubio-rs/src/fft.rs:223-235 | output checked against the input size; failure writes nothing |
| Fft.OwnSpectrumRejected | aubio-rs/src/fft.rs:59-97 | a `carr!(win)` buffer has `win/2 + 1 < win` bins, so with checks on the FFT's window-sized check refuses it |
| Fft.RdoFrameSpectrum | aubio-rs/src/fft.rs:84-97 | `rdo` on a `carr!(win)` spectrum fails with `MismatchSize` under checks, making no call and no write |
| PVoc.NewCall | aubio-rs/src/pvoc.rs:36-49 | the constructor receives window and hop sizes cast to 32 bits |
| PVoc.SetWindowCall | aubio-rs/src/pvoc.rs:127-135 | `set_window` passes one C string argument |
| PVoc.WindowArgRead | aubio-rs/src/pvoc.rs:127-135 | C reads that argument as the window's name |
| PVoc.PVoc.New | aubio-rs/src/pvoc.rs:36-49 | Err(`FailedInit`) exactly on a null handle; otherwise a fresh live object with the reported hop and window sizes |
| PVoc.PVoc.GetHop | aubio-rs/src/pvoc.rs:61-63 | the hop size the handle reports |
| PVoc.PVoc.GetWin | aubio-rs/src/pvoc.rs:68-70 | the window size the handle reports |
| PVoc.PVoc.Do | aubio-rs/src/pvoc.rs:84-97 | input checked against the hop, then the spectrum against the window; failure leaves everything untouched; success is one call confined to the spectrum's windows |
| PVoc.PVoc.Rdo | aubio-rs/src/pvoc.rs:108-122 | spectrum checked against the window, then output against the hop; same effect discipline |
| PVoc.DoFrameSpectrum | aubio-rs/src/pvoc.rs:84-97 | a hop of input with a `carr!(win)` spectrum is refused with `MismatchSize` under checks, making no native call |
| PVoc.RdoFrameSpectrum | aubio-rs/src/pvoc.rs:108-122 | `rdo` on a `carr!(win)` spectrum fails with `MismatchSize` under checks, making no call and no write |
| PVoc.PVoc.SetWindow | aubio-rs/src/pvoc.rs:127-135 | always makes the native call; Ok exactly when the native status is 0, otherwise `InvalidArg` |
| PVoc.PVoc.WithWindow | aubio-rs/src/pvoc.rs:54-56 | success returns the same live object; failure gives `InvalidArg` and the object is dropped, its handle released |
| PVoc.PVoc.Drop | aubio-rs/src/pvoc.rs:23-27 | appends the destructor; the handle is no longer live |
| Notes.NonZero | aubio-rs/src/notes.rs:17-35 | counts the non-zero values: at most the length, and zero exactly when all are zero |
| Notes.Parse | aubio-rs/src/notes.rs:17-35 | one note per non-zero pitch slot; a note-off (pitch of the third value, velocity 0) comes before a note-on (first value and its velocity); no note has pitch 0 |
| Notes.OnlyNoteOn | aubio-rs/src/notes.rs:17-35 | a frame with only a note-on gives exactly that note |
| Notes.OffBeforeOn | aubio-rs/src/notes.rs:17-35 | a frame with both gives the note-off first, then the note-on |
| Notes.NewCall | aubio-rs/src/notes.rs:60-73 | the constructor receives the terminated method name, read by C as "default" |
| Notes.Param.Call | aubio-rs/src/notes.rs:148-184 | each setter passes its value as a float |
| Notes.CallInjective | aubio-rs/src/notes.rs:148-184 | different settings make different native calls, so the call identifies the setter and its value |
| Notes.Notes.New | aubio-rs/src/notes.rs:60-73 | Err(`FailedInit`) exactly on a null handle; otherwise a fresh live object with the creation call |
| Notes.Notes.GetHop | aubio-rs/src/notes.rs:102-104 | the hop size given at creation |
| Notes.Notes.Do | aubio-rs/src/notes.rs:118-131 | input checked against the hop, then output against 3; failure leaves everything untouched; success is one call confined to the output window |
| Notes.Notes.DoResult | aubio-rs/src/notes.rs:136-143 | fails exactly when the input is shorter than the hop; otherwise at most two notes, parsed from some three-value frame |
| Notes.Notes.Set | aubio-rs/src/notes.rs:148-184 | each setter appends its native call |
| Notes.Notes.With | aubio-rs/src/notes.rs:78-97 | each builder appends the setter's call and returns the same object |
| Notes.Notes.Drop | aubio-rs/src/notes.rs:46-50 | appends the destructor; the handle is no longer live |
| Tempo.NewCall | src/tempo.rs:30-49 | the constructor receives a terminated mode name that C reads as the mode's name, and the sizes cast to 32 bits |
| Tempo.Param.Call | src/tempo.rs:154-273 | `set_delay` passes the delay cast to `sint_t`, `set_tatum_signature` the signature as `uint_t`, the rest floats |
| Tempo.DelayReadBack | src/tempo.rs:237-248 | a delay set and read back is below 2^32 and congruent to it modulo 2^32 |
| Tempo.DelayRoundTrip | src/tempo.rs:237-248 | a delay reads back unchanged exactly when it lies in [0, 2^32) |
| Tempo.NegativeDelayWraps | src/tempo.rs:237-248 | a negative delay within `sint_t` reads back increased by 2^32 |
| Tempo.Tempo.New | src/tempo.rs:30-49 | Err(`FailedInit`) exactly on a null handle; otherwise a fresh live object with the creation call |
| Tempo.Tempo.GetHop | src/tempo.rs:94-96 | the hop size given at creation |
| Tempo.Tempo.Do | src/tempo.rs:101-116 | input checked against the hop, then output against 1; failure leaves everything untouched; success is one call confined to the output window |
| Tempo.Tempo.DoResult | src/tempo.rs:121-128 | fails exactly when the input is shorter than the hop |
| Tempo.Tempo.Set | src/tempo.rs:154-273 | each setter appends its native call |
| Tempo.Tempo.With | src/tempo.rs:54-89 | each builder appends the setter's call and returns the same object |
| Tempo.Tempo.Drop | src/tempo.rs:15-19 | appends the destructor; the handle is no longer live |
| LegacyTempo.NewCall | aubio-rs/src/tempo.rs:34-47 | the constructor receives the bytes of "default" with no terminator, and the sizes cast to 32 bits |
| LegacyTempo.MethodNameUnterminated | aubio-rs/src/tempo.rs:34-47 | C finds no string in those bytes, while a terminated "default" would read correctly |
| LegacyTempo.Tempo.New | aubio-rs/src/tempo.rs:34-47 | Err(`Allocation`) exactly on a null handle; otherwise a fresh live object with the creation call |
| LegacyTempo.Tempo.Drop | aubio-rs/src/tempo.rs:20-24 | appends the destructor; the handle is no longer live |
| Mfcc.NewCall | src/mfcc.rs:39-61 | the constructor receives the four sizes cast to 32 bits |
| Mfcc.Param.Call | src/mfcc.rs:141-209 | each setter passes its values as floats; the Slaney setter passes none |
| Mfcc.CallInjective | src/mfcc.rs:141-209 | different settings make different native calls, so the call identifies the setter and its values |
| Mfcc.MFCC.New | src/mfcc.rs:39-61 | Err(`FailedInit`) exactly on a null handle; otherwise a fresh live object keeping buffer size and coefficient count |
| Mfcc.MFCC.Do | src/mfcc.rs:123-136 | spectrum checked against the buffer size, then output against the coefficient count; failure leaves everything untouched; success is one call confined to the output window |
| Mfcc.MFCC.Set | src/mfcc.rs:141-209 | each setter appends its native call |
| Mfcc.MFCC.With | src/mfcc.rs:66-115 | each builder appends the setter's call and returns the same object |
| Mfcc.MFCC.Drop | src/mfcc.rs:24-28 | appends the destructor; the handle is no longer live |
| Mfcc.FrameSpectrumStep | src/mfcc.rs:123-136 | a `carr!(buf_size)` spectrum has too few bins for the size check, so under checks `do_` fails with no call and no write |
| FilterBank.FMat.Height | src/filterbank.rs:55-65 | the number of rows |
| FilterBank.FMat.Length | src/filterbank.rs:55-65 | the common row length of a rectangular matrix, 0 when empty |
| FilterBank.ZeroCoeffs | src/filterbank.rs:35-53 | the native coefficients of a new bank: `n_filters` rows of `win_s/2 + 1` zeros |
| FilterBank.FitsIsShaped | src/filterbank.rs:55-65 | a matrix passing the shape check is `n_filters × (win_s/2 + 1)`, and with at least one filter every such matrix passes |
| FilterBank.EmptyBankRefusesAll | src/filterbank.rs:55-65 | with zero filters no matrix passes, since an empty matrix has length 0, not `win_s/2 + 1` |
| FilterBank.NewCall | src/filterbank.rs:35-53 | the constructor receives both sizes cast to 32 bits |
| FilterBank.FilterBank.New | src/filterbank.rs:35-53 | Err(`FailedInit`) exactly on a null handle; otherwise a fresh live bank with zero coefficients of the right shape |
| FilterBank.FilterBank.SetCoeffs | src/filterbank.rs:55-65 | under checks, panics exactly on a wrongly shaped matrix, with nothing changed; otherwise one native call, and a well-shaped matrix becomes the coefficients |
| FilterBank.FilterBank.GetCoeffs | src/filterbank.rs:67-69 | the current coefficients, always `n_filters` rows of `win_s/2 + 1` |
| FilterBank.FilterBank.Do | src/filterbank.rs:71-86 | under checks, panics exactly when the output is shorter than `n_filters` or the input size is not `win_s/2 + 1`; otherwise Ok with one call confined to the output window |
| FilterBank.FilterBank.Drop | src/filterbank.rs:20-24 | appends the destructor; the handle is no longer live |
| FilterBank.SetTwice | src/filterbank.rs:55-69 | setting two well-shaped matrices in turn leaves the second as the coefficients |
| FilterBank.Apply | src/filterbank.rs:71-86 | the native filter output: one dot product of a coefficient row with the spectrum norm per filter |
| FilterBank.FilterExample | src/filterbank.rs:135-149 | the test's spectrum has norm [2, 2, 2], and filters [1,1,1] and [2,2,2] give [6, 12] |
| FilterBank.TestNew | src/filterbank.rs:94-102 | a 10-filter bank over a 512 window is created live |
| FilterBank.TestSetCoeffs | src/filterbank.rs:104-113 | coefficients set on a 2 × 4 bank read back unchanged |
| FilterBank.TestWrongHeight | src/filterbank.rs:115-123 | a matrix with the wrong number of rows panics with the coefficient message |
| FilterBank.TestWrongLength | src/filterbank.rs:125-133 | a matrix with the wrong row length panics with the coefficient message |
| FilterBank.TestDo | src/filterbank.rs:135-149 | `do_` on correctly sized buffers returns Ok |
| FilterBank.TestWrongInput | src/filterbank.rs:151-162 | a wrongly sized spectrum panics with the `do_` message |
| FilterBank.TestWrongOutput | src/filterbank.rs:164-175 | a too-short output panics with the `do_` message |
| LogLevels.HeaderCodesDense | src/log.rs:12-37 | the native numbering is 0 to 4 for the five levels, 5 for the marker: distinct, dense and in range |
| LogLevels.LogLevel.Code | src/log.rs:12-37 | each level stands for its own native constant |
| LogLevels.LogLevel.Name | src/log.rs:49-60 | each level's displayed name is non-empty |
| LogLevels.LevelNames | src/log.rs:49-60 | the five level names as the source spells them |
| LogLevels.NameInjective | aubio-rs/src/log.rs:57-68 | different levels display differently |
| LogLevels.CodeInjective | aubio-rs/src/log.rs:16-41 | with distinct constants, different levels have different codes |
| LogLevels.CodeBelowLast | src/log.rs:12-37 | under the dense numbering every level's code is below the last-level marker |
| LogLevels.DenseCovers | src/log.rs:39-47 | under the dense numbering every number below the marker is some level's code |
| LegacyLog.FromFfi | aubio-rs/src/log.rs:44-55 | the signed level read as unsigned decodes exactly when it equals one of the five constants, to the level with that constant |
| LegacyLog.FromFfiRoundTrip | aubio-rs/src/log.rs:44-55 | a level's constant passed as a signed native value decodes to that level |
| LegacyLog.Handler | aubio-rs/src/log.rs:144-159 | the message is delivered exactly when the data pointer is non-null, the level decodes and the text is valid; otherwise a panic |
| LegacyLog.HandlerDeliversEveryLevel | aubio-rs/src/log.rs:144-159 | every level's constant, with valid text and a non-null logger, is delivered as that level |
| LegacyLog.NativeLog.SetFunction | aubio-rs/src/log.rs:123-136 | registering replaces whatever logger was registered |
| LegacyLog.NativeLog.Reset | aubio-rs/src/log.rs:103-107 | a reset leaves no logger registered |
| LegacyLog.Log.From | aubio-rs/src/log.rs:123-136 | a boxed logger is registered with the native state and owned by the new `Log` |
| LegacyLog.Log.Drop | aubio-rs/src/log.rs:103-107 | dropping resets native logging, whoever registered last |
| LegacyLog.DropOlder | aubio-rs/src/log.rs:103-136 | dropping an older `Log` while a newer one lives leaves no logger registered |
| Log.FromFfi | src/log.rs:39-47 | a level decodes exactly when it is below the last-level marker, to the level with that constant |
| Log.FromFfiRoundTrip | src/log.rs:39-47 | every level's constant decodes to that level |
| Log.HeaderLevels | src/log.rs:39-47 | with the native numbering, 0 to 4 decode to error, info, message, debug and warning, and 5 is refused |
| Log.Handler | src/log.rs:240-251 | delivered exactly when the data pointer is non-null, the signed level is in [0, marker) and the text is valid; otherwise a panic |
| Log.ToLevel | src/log.rs:227-237 | error, warning and debug map to their own `log` levels; message and info both map to info; trace is never used |
| Log.ToLevelMerges | src/log.rs:227-237 | two levels map alike exactly when equal or when they are message and info |
| Log.ClearSlot | src/log.rs:124-130 | dropping the held `Log` empties the slot and resets native logging; an empty slot changes nothing |
| Log.StepSet | src/log.rs:168-178 | after `set` the slot holds the new logger and it is registered; a held `Log` is reset before the registration |
| Log.StepReset | src/log.rs:181-185 | after `reset` the slot is empty, and a held `Log` has reset native logging |
| Log.StepCoherent | src/log.rs:168-185 | each `set` or `reset` keeps the slot and the native registration in agreement |
| Log.RunCoherent | src/log.rs:147-185 | along any sequence of `set` and `reset`, the native side calls back exactly the logger the slot holds |
| Log.LastSetWins | src/log.rs:168-178 | after the last `set`, its logger is held and registered, whatever came before |
| Log.RunSnoc | src/log.rs:147-185 | running a sequence and then one more operation is running the longer sequence |
| Log.NaiveSetLosesRegistration | src/log.rs:168-178 | registering the new logger before dropping the old one would leave the slot holding a logger that is not registered |
| Log.GlobalLogger.NativeReset | src/log.rs:124-130 | a `Log`'s drop clears the registration and records the reset |
| Log.GlobalLogger.NativeRegister | src/log.rs:132-145 | `Log::new` registers the boxed logger and records it |
| Log.GlobalLogger.Set | src/log.rs:168-178 | the slot moves to `StepSet` of its old state, and stays coherent |
| Log.GlobalLogger.Reset | src/log.rs:181-185 | the slot moves to `StepReset` of its old state, and stays coherent |

## Left out

- The aubio C library itself is not modelled: FFT, onset and pitch
  detection, filtering, resampling and so on. Its outputs are arbitrary
  values written inside the output views.
- Native values are parameters: a constructor's returned pointer, the
  hop and window sizes `get_hop`/`get_win` report for onset and phase
  vocoder objects, and `set_window`'s status.
- Onset.Onset.GetHop: `get_hop` (aubio-rs/src/onset.rs:318-320) casts the
  onset handle to a phase vocoder handle and asks `aubio_pvoc_get_hop`
  for its hop, so what it returns is whatever the C library reads at that
  place in the onset object. The model takes it as the unconstrained
  constructor parameter `nativeHop`; the hop that `Onset.Onset.Do` and
  `Onset.Onset.DoResult` check the input against is therefore not known
  to be the `hop_size` given to `new`.
- Onset.NativeStr: no implementation of `AsNativeStr` for `OnsetMode` is
  part of this model's sources, though src/tempo.rs:39 calls
  `as_native_cstr` on a mode. It is assumed to follow the trait's
  documented rule (src/types.rs:54-58): the name followed by a NUL.
  `Tempo.NewCall`, `SpecDesc.SpecMethod.NativeStr`, `SpecDesc.NewCall` and
  `SpecDesc.MethodNameRead` inherit this assumption.
- Getters that only return a native value, with no wrapper logic, are
  not modelled. Some return integers (`usize`, `u32`) and some floats:
  `get_last`, `get_last_s`/`_ms`, `get_silence`, `get_threshold`,
  `get_descriptor`, `get_thresholded_descriptor`, `get_compression`,
  `get_bpm`, `get_confidence`, `get_period`, `get_period_s`, `was_tatum`,
  `get_last_tatum`, `get_minioi`, `get_minioi_s`/`_ms`, `Onset::get_delay`,
  `get_delay_s`/`_ms` of both objects, `get_tolerance`, `get_power`,
  `get_scale` and `get_release_drop`. `Onset::get_awhitening` and
  `Tempo::get_delay` (src/tempo.rs:246) are modelled: each converts the
  native value.
- f32 arithmetic is modelled with `real`, with no rounding and no NaN.
  `Resampler.RequiredOutput` takes the exact floor of input size × ratio.
- The name enums' `Display` implementations are not modelled separately:
  each prints the enum's `Name()`. `Deref` and `DerefMut`
  implementations, lifetimes and `PhantomData` are not modelled.
- The real `FMat` view of src/vec.rs is not part of this model.
  Matrices are `FilterBank.FMat` values as rectangular rows. A
  non-rectangular matrix is excluded by `SetCoeffs`'s precondition,
  because a slice-of-slices matrix view has one row length.
- `fmat_copy` between differently shaped matrices is assumed to copy
  nothing. So `SetCoeffs` with checks off and a mismatched shape leaves
  the coefficients unchanged.
- The native log-level constants come from generated bindings that are
  not part of this model. They are the parameter `LogCodes`. For the
  newer revision they are assumed to be the enumeration's numbering 0 to
  5 (`LogLevels.HeaderCodes`).
- The native delay is assumed to be stored as the 32 bits it receives and
  returned as `uint_t` (`Tempo.DelayReadBack`).
- `Log::from_fn` is `From` on a closure logger, and is not modelled apart
  from `From`.
- The `log` crate backend (`LogLogger`) is modelled only as its level
  mapping `Log.ToLevel`.
- `with_global_logger` is not modelled: its `Once`, `Mutex` and
  `static mut` initialisation. The slot is one `GlobalLogger` object, and
  concurrent access is not modelled.
- Extern C callbacks are pure functions of their arguments (`Handler`).
  Decoding a message's bytes as UTF-8 is the parameter `text`.
- `Vec.CVec.From` and `Vec.CVecMut.From`: the `unwrap` panic on an odd
  buffer under checks is a precondition, not an outcome.
- `Tempo.Tempo.With` excludes the tatum signature, because the source
  has no `with_tatum_signature` builder.
- The `check-size` feature is a constant set to on. Each view's
  `CheckSize` is stated for the checked build. The unchecked policy is
  stated once, in `Vec.CheckLength` and `Vec.UncheckedPartsOverrun`.
- The rest of the repository is not part of this model: `utils.rs`, the
  build scripts, the `-sys`/`-lib` crates and the example program.
