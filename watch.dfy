/** The interval syntax of watch mode: `parse_interval` reads `1h30m`-style
    text as seconds, and `WatchMode._format_interval` writes an interval back
    out. The scheduling loop itself is not modelled. */
module Watch {
  import opened Wrappers
  import opened Text

  /** The three groups of `(?:(\d+)h)?(?:(\d+)m)?(?:(\d+)s)?$`; a group that
      took no part in the match is `None`. */
  datatype Groups = Groups(hours: Option<string>, minutes: Option<string>, seconds: Option<string>)

  predicate DigitRun(d: Option<string>) {
    d.Some? ==> |d.value| > 0 && AllDigits(d.value)
  }

  predicate WellFormed(g: Groups) {
    DigitRun(g.hours) && DigitRun(g.minutes) && DigitRun(g.seconds)
  }

  /** A group with its unit letter, or nothing. */
  function Component(d: Option<string>, unit: char): string {
    if d.Some? then d.value + [unit] else ""
  }

  /** The text a set of groups matches: the grammar of intervals, read backwards. */
  function Spell(g: Groups): string {
    Component(g.hours, 'h') + Component(g.minutes, 'm') + Component(g.seconds, 's')
  }

  /** The length of the run of digits `t` starts with. */
  function DigitPrefix(t: string): (k: nat)
    ensures k <= |t| && AllDigits(t[..k])
    ensures k < |t| ==> !IsDigit(t[k])
  {
    if t == [] || !IsDigit(t[0]) then 0
    else
      var k := 1 + DigitPrefix(t[1..]);
      assert forall i :: 1 <= i < k ==> t[..k][i] == t[1..][..k - 1][i - 1];
      k
  }

  /** One optional group `(?:(\d+)u)?` at the front of `t`: its digits and
      what follows, or no group and all of `t`. */
  function TakeUnit(t: string, unit: char): (r: (Option<string>, string))
    ensures DigitRun(r.0)
    ensures t == Component(r.0, unit) + r.1
  {
    var k := DigitPrefix(t);
    if 0 < k < |t| && t[k] == unit then
      assert t == t[..k] + [unit] + t[k + 1..];
      (Some(t[..k]), t[k + 1..])
    else (None, t)
  }

  /** `re.match` of the interval pattern: the three optional groups in turn,
      then the end of the text. */
  function MatchInterval(t: string): (r: Option<Groups>)
    ensures r.Some? ==> WellFormed(r.value) && Spell(r.value) == t
  {
    var h := TakeUnit(t, 'h');
    var m := TakeUnit(h.1, 'm');
    var s := TakeUnit(m.1, 's');
    if s.1 == [] then
      SpellOfPieces(t, Component(h.0, 'h'), h.1, Component(m.0, 'm'), m.1, Component(s.0, 's'));
      Some(Groups(h.0, m.0, s.0))
    else None
  }

  lemma SpellOfPieces(t: string, a: string, t1: string, b: string, t2: string, c: string)
    requires t == a + t1 && t1 == b + t2 && t2 == c + []
    ensures t == a + b + c
  {
  }

  lemma {:induction false} DigitPrefixOf(d: string, v: char, rest: string)
    requires AllDigits(d) && !IsDigit(v)
    ensures DigitPrefix(d + [v] + rest) == |d|
  {
    if d != [] {
      assert (d + [v] + rest)[1..] == d[1..] + [v] + rest;
      DigitPrefixOf(d[1..], v, rest);
    }
  }

  lemma TakeUnitHere(d: Option<string>, unit: char, rest: string)
    requires DigitRun(d) && d.Some? && !IsDigit(unit)
    ensures TakeUnit(Component(d, unit) + rest, unit) == (d, rest)
  {
    var t := Component(d, unit) + rest;
    DigitPrefixOf(d.value, unit, rest);
    assert t[..|d.value|] == d.value;
    assert t[|d.value| + 1..] == rest;
  }

  lemma TakeUnitElsewhere(d: Option<string>, unit: char, other: char, rest: string)
    requires DigitRun(d) && unit != other && !IsDigit(other)
    requires d.None? ==> rest == [] || !IsDigit(rest[0])
    ensures TakeUnit(Component(d, other) + rest, unit) == (None, Component(d, other) + rest)
  {
    if d.Some? {
      DigitPrefixOf(d.value, other, rest);
      assert (Component(d, other) + rest)[|d.value|] == other;
    }
  }

  /** The grammar is unambiguous: spelled-out groups are matched back as
      exactly those groups. */
  lemma MatchSpelled(g: Groups)
    requires WellFormed(g)
    ensures MatchInterval(Spell(g)) == Some(g)
  {
    var hs := Component(g.hours, 'h');
    var ms := Component(g.minutes, 'm');
    var ss := Component(g.seconds, 's');
    assert Spell(g) == hs + (ms + ss);
    // the seconds group
    if g.seconds.Some? {
      TakeUnitHere(g.seconds, 's', []);
      assert ss + [] == ss;
    }
    // the minutes group
    if g.minutes.Some? {
      TakeUnitHere(g.minutes, 'm', ss);
    } else if g.seconds.Some? {
      TakeUnitElsewhere(g.seconds, 'm', 's', []);
      assert ss + [] == ss;
    }
    // the hours group
    if g.hours.Some? {
      TakeUnitHere(g.hours, 'h', ms + ss);
    } else if g.minutes.Some? {
      TakeUnitElsewhere(g.minutes, 'h', 'm', ss);
      assert ms + ss == Component(g.minutes, 'm') + ss;
    } else if g.seconds.Some? {
      TakeUnitElsewhere(g.seconds, 'h', 's', []);
      assert ms + ss == ss + [];
    }
  }

  lemma MatchUnique(t: string)
    ensures forall g :: WellFormed(g) && Spell(g) == t ==> MatchInterval(t) == Some(g)
  {
    forall g | WellFormed(g) && Spell(g) == t
      ensures MatchInterval(t) == Some(g)
    {
      MatchSpelled(g);
    }
  }

  function GroupValue(d: Option<string>): nat
    requires DigitRun(d)
  {
    if d.Some? then DigitsValue(d.value) else 0
  }

  /** The seconds the groups stand for. */
  function Total(g: Groups): nat
    requires WellFormed(g)
  {
    3600 * GroupValue(g.hours) + 60 * GroupValue(g.minutes) + GroupValue(g.seconds)
  }

  const ZeroIntervalMessage := "Interval must be greater than 0"

  /** `parse_interval` as a value: the stripped, lower-cased text is matched,
      and the seconds of the groups must be positive. */
  function ParseIntervalSpec(s: string): Result<nat, string> {
    match MatchInterval(Lower(Strip(s)))
    case None => Err("Invalid interval format: " + s)
    case Some(g) => if Total(g) == 0 then Err(ZeroIntervalMessage) else Ok(Total(g))
  }

  /** What parsing means: the text must be spelled by some groups, and the
      seconds they stand for must be positive; otherwise an error names the
      text. */
  lemma ParseIntervalMeaning(s: string)
    ensures ParseIntervalSpec(s).Ok? ==> ParseIntervalSpec(s).value > 0
    ensures forall g :: WellFormed(g) && Spell(g) == Lower(Strip(s)) ==>
              ParseIntervalSpec(s) == if Total(g) > 0 then Ok(Total(g)) else Err(ZeroIntervalMessage)
    ensures (forall g :: WellFormed(g) ==> Spell(g) != Lower(Strip(s))) ==>
              ParseIntervalSpec(s) == Err("Invalid interval format: " + s)
  {
    MatchUnique(Lower(Strip(s)));
  }

  /** `parse_interval`: match, then add up the groups that are present. */
  method ParseInterval(s: string) returns (r: Result<nat, string>)
    ensures r == ParseIntervalSpec(s)
  {
    var matched := MatchInterval(Lower(Strip(s)));
    if matched.None? {
      assert ParseIntervalSpec(s) == Err("Invalid interval format: " + s);
      return Err("Invalid interval format: " + s);
    }
    var g := matched.value;
    assert ParseIntervalSpec(s) == if Total(g) == 0 then Err(ZeroIntervalMessage) else Ok(Total(g));
    ghost var hv, mv, sv := GroupValue(g.hours), GroupValue(g.minutes), GroupValue(g.seconds);
    assert Total(g) == 3600 * hv + 60 * mv + sv;
    var total: nat := 0;
    if g.hours.Some? && g.hours.value != [] {
      total := total + DigitsValue(g.hours.value) * 3600;
    }
    assert total == 3600 * hv;
    if g.minutes.Some? && g.minutes.value != [] {
      total := total + DigitsValue(g.minutes.value) * 60;
    }
    assert total == 3600 * hv + 60 * mv;
    if g.seconds.Some? && g.seconds.value != [] {
      total := total + DigitsValue(g.seconds.value);
    }
    assert total == 3600 * hv + 60 * mv + sv;
    if total == 0 {
      assert ParseIntervalSpec(s) == Err(ZeroIntervalMessage);
      return Err(ZeroIntervalMessage);
    }
    assert Total(g) == total && Total(g) != 0;
    assert ParseIntervalSpec(s) == Ok(total);
    return Ok(total);
  }

  /** `_format_interval`: seconds below a minute, whole minutes below an hour,
      else hours with the minutes when there are any; leftover seconds are
      dropped. */
  function FormatInterval(n: int): (r: string)
    ensures r != [] && (r[|r| - 1] == 's' <==> n < 60)
    ensures 'h' in r <==> n >= 3600
    ensures n >= 3600 ==> (r[|r| - 1] == 'm' <==> (n % 3600) / 60 != 0)
  {
    if n < 60 then IntToString(n) + "s"
    else if n < 3600 then NatToString(n / 60) + "m"
    else
      var hours := n / 3600;
      var minutes := (n % 3600) / 60;
      if minutes == 0 then NatToString(hours) + "h" else NatToString(hours) + "h" + NatToString(minutes) + "m"
  }

  /** A character an interval is spelled with. */
  predicate IntervalChar(c: char) {
    IsDigit(c) || c == 'h' || c == 'm' || c == 's'
  }

  predicate AllIntervalChars(s: string) {
    forall i :: 0 <= i < |s| ==> IntervalChar(s[i])
  }

  lemma ComponentChars(d: Option<string>, unit: char)
    requires DigitRun(d) && IntervalChar(unit)
    ensures AllIntervalChars(Component(d, unit))
  {
  }

  lemma ConcatChars(a: string, b: string)
    requires AllIntervalChars(a) && AllIntervalChars(b)
    ensures AllIntervalChars(a + b)
  {
    assert forall i :: 0 <= i < |a + b| ==> (a + b)[i] == if i < |a| then a[i] else b[i - |a|];
  }

  lemma SpellChars(g: Groups)
    requires WellFormed(g)
    ensures AllIntervalChars(Spell(g))
  {
    var hs := Component(g.hours, 'h');
    var ms := Component(g.minutes, 'm');
    var ss := Component(g.seconds, 's');
    ComponentChars(g.hours, 'h');
    ComponentChars(g.minutes, 'm');
    ComponentChars(g.seconds, 's');
    ConcatChars(hs, ms);
    ConcatChars(hs + ms, ss);
  }

  lemma LowerOfIntervalChars(t: string)
    requires AllIntervalChars(t)
    ensures Lower(t) == t
  {
  }

  /** Text of digits and lower-case unit letters is left alone by the
      stripping and lower-casing `parse_interval` applies first. */
  lemma NormalizedSpelling(g: Groups)
    requires WellFormed(g) && Spell(g) != []
    ensures Lower(Strip(Spell(g))) == Spell(g)
  {
    var t := Spell(g);
    SpellChars(g);
    assert IntervalChar(t[0]) && IntervalChar(t[|t| - 1]);
    StripOfUnpadded(t);
    LowerOfIntervalChars(t);
  }

  function Digits(n: nat): Option<string> {
    Some(NatToString(n))
  }

  lemma ValueOfDigits(n: nat)
    ensures DigitRun(Digits(n)) && GroupValue(Digits(n)) == n
  {
    DigitsRoundTrip(n);
  }

  /** The groups each formatted interval spells. */
  function FormattedGroups(n: nat): (g: Groups)
    requires n > 0
    ensures WellFormed(g) && Spell(g) == FormatInterval(n)
  {
    ValueOfDigits(n);
    ValueOfDigits(n / 60);
    ValueOfDigits(n / 3600);
    ValueOfDigits((n % 3600) / 60);
    if n < 60 then
      assert Spell(Groups(None, None, Digits(n))) == NatToString(n) + "s";
      Groups(None, None, Digits(n))
    else if n < 3600 then
      assert Spell(Groups(None, Digits(n / 60), None)) == NatToString(n / 60) + "m";
      Groups(None, Digits(n / 60), None)
    else if (n % 3600) / 60 == 0 then
      assert Spell(Groups(Digits(n / 3600), None, None)) == NatToString(n / 3600) + "h";
      Groups(Digits(n / 3600), None, None)
    else
      assert Spell(Groups(Digits(n / 3600), Digits((n % 3600) / 60), None))
          == NatToString(n / 3600) + "h" + NatToString((n % 3600) / 60) + "m";
      Groups(Digits(n / 3600), Digits((n % 3600) / 60), None)
  }

  lemma TotalOfFormatted(n: nat)
    requires n > 0
    ensures Total(FormattedGroups(n)) == if n < 60 then n else n - n % 60
  {
    ValueOfDigits(n);
    ValueOfDigits(n / 60);
    ValueOfDigits(n / 3600);
    ValueOfDigits((n % 3600) / 60);
    if n >= 3600 {
      HoursAndMinutes(n);
    }
  }

  /** A positive interval is formatted to text that parses back to itself
      with the seconds below a whole minute dropped, once it is a minute or
      longer. */
  lemma FormatThenParse(n: int)
    requires n > 0
    ensures ParseIntervalSpec(FormatInterval(n)) == Ok(if n < 60 then n else n - n % 60)
  {
    var g := FormattedGroups(n);
    NormalizedSpelling(g);
    TotalOfFormatted(n);
    assert WellFormed(g) && Spell(g) == Lower(Strip(FormatInterval(n)));
    ParseIntervalMeaning(FormatInterval(n));
  }

  lemma HoursAndMinutes(n: nat)
    ensures 3600 * (n / 3600) + 60 * ((n % 3600) / 60) == n - n % 60
  {
    var h := n / 3600;
    var r := n % 3600;
    var m := r / 60;
    assert n == 3600 * h + r;
    assert r == 60 * m + r % 60;
    assert n % 60 == r % 60 by {
      assert n == 60 * (60 * h + m) + r % 60;
    }
  }

  /** The round trip `parse_interval(_format_interval(n)) == n` holds for a
      positive interval exactly when it is under a minute or a whole number
      of minutes. */
  lemma RoundTripIff(n: int)
    requires n > 0
    ensures ParseIntervalSpec(FormatInterval(n)) == Ok(n) <==> n < 60 || n % 60 == 0
  {
    FormatThenParse(n);
  }

  /** A zero interval is formatted as `0s`, which does not parse. */
  lemma ZeroDoesNotRoundTrip()
    ensures ParseIntervalSpec(FormatInterval(0)) == Err(ZeroIntervalMessage)
  {
    var g := Groups(None, None, Some("0"));
    assert FormatInterval(0) == "0s";
    assert Spell(g) == "0s";
    NormalizedSpelling(g);
    MatchSpelled(g);
    assert Total(g) == 0 by {
      assert DigitsValue("0") == 0;
    }
    assert MatchInterval(Lower(Strip(FormatInterval(0)))) == Some(g);
  }
}
