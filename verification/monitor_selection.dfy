/** Choosing the two monitors: DISPLAY2 shows the magnified view, and the
    source is the configured monitor, else the primary one, else any other. */
module MonitorSelection {
  import opened Options
  import opened Geometry

  /** The device-name prefix `\\.\DISPLAY`. */
  const DisplayPrefix: string := "\\\\.\\DISPLAY"

  /** The largest LONG; `wcstol` saturates there on overflow. */
  const LongMax: int := 0x7FFF_FFFF

  predicate IsDigit(c: char) {
    '0' <= c <= '9'
  }

  predicate AllDigits(s: string) {
    forall i :: 0 <= i < |s| ==> IsDigit(s[i])
  }

  function DigitValue(c: char): nat
    requires IsDigit(c)
  {
    c as int - '0' as int
  }

  /** The length of the run of digits that starts `s`. */
  function DigitRun(s: string): (k: nat)
    ensures k <= |s| && AllDigits(s[..k])
    ensures k < |s| ==> !IsDigit(s[k])
  {
    if |s| == 0 || !IsDigit(s[0]) then 0
    else
      var k := 1 + DigitRun(s[1..]);
      assert s[..k] == [s[0]] + s[1..][..k - 1];
      k
  }

  /** The value of a decimal digit string, most significant digit first. */
  function DigitsValue(ds: string): nat
    requires AllDigits(ds)
  {
    if |ds| == 0 then 0
    else DigitsValue(ds[..|ds| - 1]) * 10 + DigitValue(ds[|ds| - 1])
  }

  /** `wcstol(s, &end, 10)` on text that starts with a digit: the value of
      the leading digits, saturated at LONG_MAX. */
  function ParseLong(s: string): int {
    var k := DigitRun(s);
    var v := DigitsValue(s[..k]);
    if v > LongMax then LongMax else v
  }

  /** The display number n of a device name `\\.\DISPLAYn`, or -1 when the
      name has another shape or n is not positive. */
  function DisplayNumber(name: string): (n: int)
    ensures n == -1 || 1 <= n <= LongMax
  {
    if |name| < |DisplayPrefix| || name[..|DisplayPrefix|] != DisplayPrefix then -1
    else
      var digits := name[|DisplayPrefix|..];
      if |digits| == 0 || !IsDigit(digits[0]) then -1
      else
        var v := ParseLong(digits);
        if v <= 0 then -1 else v
  }

  /** Decimal digits of n, most significant first. */
  function Numeral(n: nat): (s: string)
    ensures |s| > 0 && AllDigits(s)
  {
    var d := ['0' + ((n % 10) as char)];
    if n < 10 then d else Numeral(n / 10) + d
  }

  lemma {:induction false} NumeralValue(n: nat)
    ensures DigitsValue(Numeral(n)) == n
  {
    var s := Numeral(n);
    if n >= 10 {
      NumeralValue(n / 10);
      assert s[..|s| - 1] == Numeral(n / 10);
    }
  }

  lemma {:induction false} DigitRunOfDigits(ds: string, rest: string)
    requires AllDigits(ds)
    requires |rest| == 0 || !IsDigit(rest[0])
    ensures DigitRun(ds + rest) == |ds|
  {
    if |ds| > 0 {
      assert (ds + rest)[1..] == ds[1..] + rest;
      DigitRunOfDigits(ds[1..], rest);
    } else {
      assert ds + rest == rest;
    }
  }

  /** The parser reads back the number in the name `\\.\DISPLAYn`, also
      when other text that does not start with a digit follows it. */
  lemma DisplayNumberOfName(n: nat, rest: string)
    requires 1 <= n <= LongMax
    requires |rest| == 0 || !IsDigit(rest[0])
    ensures DisplayNumber(DisplayPrefix + Numeral(n) + rest) == n
  {
    var name := DisplayPrefix + Numeral(n) + rest;
    assert name[..|DisplayPrefix|] == DisplayPrefix;
    var digits := name[|DisplayPrefix|..];
    assert digits == Numeral(n) + rest;
    DigitRunOfDigits(Numeral(n), rest);
    assert digits[..|Numeral(n)|] == Numeral(n);
    NumeralValue(n);
  }

  /** The chosen magnifier and source monitors, as list indices. */
  datatype Choice = Choice(source: nat, magnifier: nat)

  /** `i` is the first monitor whose device name is `name`. */
  predicate FirstNamed(list: seq<Monitor>, name: string, i: int) {
    0 <= i < |list| && list[i].deviceName == name && forall j :: 0 <= j < i ==> list[j].deviceName != name
  }

  /** `i` is the first monitor named `\\.\DISPLAY2`. */
  predicate FirstDisplay2(list: seq<Monitor>, i: int) {
    0 <= i < |list| && DisplayNumber(list[i].deviceName) == 2
    && forall j :: 0 <= j < i ==> DisplayNumber(list[j].deviceName) != 2
  }

  /** `i` is the first primary monitor other than `mag`. */
  predicate FirstPrimaryOther(list: seq<Monitor>, mag: int, i: int) {
    0 <= i < |list| && i != mag && list[i].primary
    && forall j :: 0 <= j < i && j != mag ==> !list[j].primary
  }

  /** The configured name designates a usable source monitor. */
  ghost predicate ConfiguredUsable(list: seq<Monitor>, name: string, mag: int) {
    name != [] && exists i :: FirstNamed(list, name, i) && i != mag
  }

  /** Selects the monitors. It fails when fewer than two monitors exist or
      none is DISPLAY2. The magnifier is the first DISPLAY2; the source is the
      first monitor with the configured name unless that is the magnifier,
      otherwise the first primary monitor that is not the magnifier,
      otherwise the first monitor that is not the magnifier. */
  method SelectMonitors(list: seq<Monitor>, configured: string) returns (r: Option<Choice>)
    ensures r.None? <==> |list| < 2 || forall i :: 0 <= i < |list| ==> DisplayNumber(list[i].deviceName) != 2
    ensures r.Some? ==>
      var c := r.value;
      && c.source < |list| && c.magnifier < |list| && c.source != c.magnifier
      && FirstDisplay2(list, c.magnifier)
      && (ConfiguredUsable(list, configured, c.magnifier) ==> FirstNamed(list, configured, c.source))
      && ((!ConfiguredUsable(list, configured, c.magnifier) && exists i :: FirstPrimaryOther(list, c.magnifier, i))
          ==> FirstPrimaryOther(list, c.magnifier, c.source))
      && ((!ConfiguredUsable(list, configured, c.magnifier) && forall i :: !FirstPrimaryOther(list, c.magnifier, i))
          ==> c.source == (if c.magnifier == 0 then 1 else 0))
  {
    if |list| < 2 {
      return None;
    }
    // find_by_number(2)
    var magnifier := -1;
    var i := 0;
    while i < |list|
      invariant 0 <= i <= |list|
      invariant magnifier == -1 ==> forall j :: 0 <= j < i ==> DisplayNumber(list[j].deviceName) != 2
      invariant magnifier != -1 ==> FirstDisplay2(list, magnifier)
      decreases |list| - i
    {
      if DisplayNumber(list[i].deviceName) == 2 {
        magnifier := i;
        break;
      }
      i := i + 1;
    }
    if magnifier < 0 {
      return None;
    }
    // find_by_name(configured)
    var source := -1;
    if configured != [] {
      i := 0;
      while i < |list|
        invariant 0 <= i <= |list|
        invariant source == -1 ==> forall j :: 0 <= j < i ==> list[j].deviceName != configured
        invariant source != -1 ==> FirstNamed(list, configured, source)
        decreases |list| - i
      {
        if list[i].deviceName == configured {
          source := i;
          break;
        }
        i := i + 1;
      }
    }
    ghost var named := source;
    if source == magnifier {
      source := -1;
    }
    assert source != -1 ==> FirstNamed(list, configured, source) && ConfiguredUsable(list, configured, magnifier);
    assert source == -1 ==> !ConfiguredUsable(list, configured, magnifier);
    if source < 0 {
      i := 0;
      while i < |list|
        invariant 0 <= i <= |list|
        invariant source == -1 ==> forall j :: 0 <= j < i && j != magnifier ==> !list[j].primary
        invariant source != -1 ==> FirstPrimaryOther(list, magnifier, source)
        decreases |list| - i
      {
        if i != magnifier && list[i].primary {
          source := i;
          break;
        }
        i := i + 1;
      }
      if source != -1 {
        assert !forall j :: !FirstPrimaryOther(list, magnifier, j) by {
          assert FirstPrimaryOther(list, magnifier, source);
        }
      }
      if source < 0 {
        assert forall j :: !FirstPrimaryOther(list, magnifier, j);
        i := 0;
        while i < |list|
          invariant 0 <= i <= |list|
          invariant source == -1 ==> i == 0 || (i == 1 && magnifier == 0)
          invariant source != -1 ==> source == (if magnifier == 0 then 1 else 0)
          decreases |list| - i
        {
          if i != magnifier {
            source := i;
            break;
          }
          i := i + 1;
        }
        // Two monitors exist, so one of the first two is not the magnifier.
      }
    }
    return Some(Choice(source, magnifier));
  }
}
