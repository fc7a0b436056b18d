/**
 * Window functions: a name table whose native names carry the terminator.
 */
module WinFunc {
  import opened Types

  /** The window shapes the phase vocoder accepts. */
  datatype WindowType =
    | Ones | Rectangle | Hamming | Hanning | Hanningz
    | Blackman | BlackmanHarris | Gaussian | Welch | Parzen
  {
    /** `as_native_str`: the terminated native name. */
    function NativeStr(): (s: string)
      ensures Terminated(s)
    {
      match this
      case Ones => "ones\0"
      case Rectangle => "rectangle\0"
      case Hamming => "hamming\0"
      case Hanning => "hanning\0"
      case Hanningz => "hanningz\0"
      case Blackman => "blackman\0"
      case BlackmanHarris => "blackman_harris\0"
      case Gaussian => "gaussian\0"
      case Welch => "welch\0"
      case Parzen => "parzen\0"
    }

    /** `as_ref`: the native name without its terminator. */
    function Name(): (s: string)
      ensures s + "\0" == NativeStr() && '\0' !in s
    {
      RustStrRoundTrip(NativeStr());
      AsRustStr(NativeStr())
    }

    /** `from_str`: the window with the given name, or `InvalidArg`. */
    static function FromStr(src: string): (r: Result<WindowType>)
      ensures r.Ok? ==> r.value.Name() == src
      ensures r.Err? <==> forall w: WindowType :: w.Name() != src
      ensures r.Err? ==> r.error == InvalidArg
    {
      WindowNames();
      if src == "ones" then Ok(Ones)
      else if src == "rectangle" then Ok(Rectangle)
      else if src == "hamming" then Ok(Hamming)
      else if src == "hanning" then Ok(Hanning)
      else if src == "hanningz" then Ok(Hanningz)
      else if src == "blackman" then Ok(Blackman)
      else if src == "blackman_harris" then Ok(BlackmanHarris)
      else if src == "gaussian" then Ok(Gaussian)
      else if src == "welch" then Ok(Welch)
      else if src == "parzen" then Ok(Parzen)
      else UnlistedWindowName(src); Err(InvalidArg)
    }
  }

  /** The default window. */
  const DefaultWindow: WindowType := Hanningz

  /** The default window is the one named "hanningz", and that name parses back to it. */
  lemma DefaultWindowName()
    ensures DefaultWindow.Name() == "hanningz" && WindowType.FromStr("hanningz") == Ok(DefaultWindow)
  {
    WindowNames();
  }

  /** Each window's name is its native name without the terminator; `BlackmanHarris` is "blackman_harris". */
  lemma WindowNames()
    ensures Ones.Name() == "ones" && Rectangle.Name() == "rectangle" && Hamming.Name() == "hamming"
    ensures Hanning.Name() == "hanning" && Hanningz.Name() == "hanningz" && Blackman.Name() == "blackman"
    ensures BlackmanHarris.Name() == "blackman_harris" && Gaussian.Name() == "gaussian"
    ensures Welch.Name() == "welch" && Parzen.Name() == "parzen"
  {
    assert Ones.Name() + "\0" == "ones\0";
    assert Rectangle.Name() + "\0" == "rectangle\0";
    assert Hamming.Name() + "\0" == "hamming\0";
    assert Hanning.Name() + "\0" == "hanning\0";
    assert Hanningz.Name() + "\0" == "hanningz\0";
    assert Blackman.Name() + "\0" == "blackman\0";
    assert BlackmanHarris.Name() + "\0" == "blackman_harris\0";
    assert Gaussian.Name() + "\0" == "gaussian\0";
    assert Welch.Name() + "\0" == "welch\0";
    assert Parzen.Name() + "\0" == "parzen\0";
  }

  /** A string outside the `from_str` table is no window's name. */
  lemma UnlistedWindowName(src: string)
    requires src !in {"ones", "rectangle", "hamming", "hanning", "hanningz",
                      "blackman", "blackman_harris", "gaussian", "welch", "parzen"}
    ensures forall w: WindowType :: w.Name() != src
  {
    WindowNames();
    forall w: WindowType
      ensures w.Name() != src
    {
      match w
      case Ones =>
      case Rectangle =>
      case Hamming =>
      case Hanning =>
      case Hanningz =>
      case Blackman =>
      case BlackmanHarris =>
      case Gaussian =>
      case Welch =>
      case Parzen =>
    }
  }

  /** No two windows share a name. */
  lemma WindowNameInjective(a: WindowType, b: WindowType)
    ensures a.Name() == b.Name() ==> a == b
  {
    WindowNames();
  }

  /** Parsing a window's name gives it back. */
  lemma WindowRoundTrip(w: WindowType)
    ensures WindowType.FromStr(w.Name()) == Ok(w)
  {
    WindowNameInjective(WindowType.FromStr(w.Name()).value, w);
  }

  /**
   * A pointer to the start of a window's name (as `as_ref().as_ptr()`
   * gives) lies in the terminated native string, so C reads the name.
   */
  lemma WindowNameRead(w: WindowType)
    ensures CStringAt(w.NativeStr()) == Some(w.Name())
  {
    NativeNameReadsAsRustName(w.NativeStr());
  }
}
