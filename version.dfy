/**
 * The release helpers of the packaging script: a version string such as
 * `2.1.0.3` or `2.1.0.4.dev2` is split on `.`, one numeric component is
 * bumped, and the pieces are joined again.
 */
module Version {
  import opened Wrappers
  import Text
  import Decimal

  /** The `.`-separated components of a version string, as `v.split('.')`. */
  function Components(v: string): (parts: seq<string>)
    ensures |parts| >= 1
    ensures forall k :: 0 <= k < |parts| ==> '.' !in parts[k]
  {
    Text.SplitLacksSep(v, '.');
    Text.Split(v, '.')
  }

  /** `'.'.join(parts)`. */
  function Render(parts: seq<string>): string {
    Text.Join(parts, '.')
  }

  /** `str(n + 1)` of a component read by `int()`. */
  function Bumped(n: int): string {
    Decimal.IntToString(n + 1)
  }

  /** `increment_release`: bump the fourth of exactly four components, otherwise keep at most four. */
  function IncrementRelease(v: string): (r: Result<string, PyError>)
    ensures r.Err? <==> |Components(v)| == 4 && Decimal.ParseInt(Components(v)[3]).None?
    ensures r.Err? ==> r.error == ValueError
  {
    var parts := Components(v);
    if |parts| == 4 then
      match Decimal.ParseInt(parts[3])
      case None => Err(ValueError)
      case Some(n) => Ok(Render(parts[..3] + [Bumped(n)]))
    else
      Ok(Render(if |parts| <= 4 then parts else parts[..4]))
  }

  /** `increment_dev`: from four components start `dev1`; from five or more bump the `devN` suffix. */
  function IncrementDev(v: string): (r: Result<string, PyError>)
    ensures r == Err(IndexError) <==> |Components(v)| < 4
    ensures r.Err? ==> r.error == IndexError || r.error == ValueError
  {
    var parts := Components(v);
    if |parts| == 4 then
      match Decimal.ParseInt(parts[3])
      case None => Err(ValueError)
      case Some(n) => Ok(Render(parts[..3] + [Bumped(n), "dev1"]))
    else if |parts| < 5 then
      Err(IndexError)
    else
      var tag := parts[4];
      match Decimal.ParseInt(if |tag| >= 3 then tag[3..] else [])
      case None => Err(ValueError)
      case Some(n) => Ok(Render(parts[..4] + ["dev" + Bumped(n)]))
  }

  /** A printed number is a single component. */
  lemma BumpedHasNoDot(n: int)
    ensures '.' !in Bumped(n)
  {
    var s := Bumped(n);
    assert forall k :: 0 <= k < |s| ==> s[k] == '-' || Decimal.IsDigit(s[k]);
  }

  /** Rendering dot-free components and splitting again gives the components back. */
  lemma ComponentsOfRender(parts: seq<string>)
    requires |parts| >= 1
    requires forall k :: 0 <= k < |parts| ==> '.' !in parts[k]
    ensures Components(Render(parts)) == parts
  {
    Text.SplitJoin(parts, '.');
  }

  /** Four components: the first three are kept and the fourth becomes its integer successor. */
  lemma ReleaseBumpsFourth(v: string)
    requires |Components(v)| == 4
    ensures var p := Components(v);
      match Decimal.ParseInt(p[3])
      case None => IncrementRelease(v) == Err(ValueError)
      case Some(n) => IncrementRelease(v).Ok? && Components(IncrementRelease(v).value) == p[..3] + [Bumped(n)]
  {
    var p := Components(v);
    if Decimal.ParseInt(p[3]).Some? {
      BumpedHasNoDot(Decimal.ParseInt(p[3]).value);
      ComponentsOfRender(p[..3] + [Bumped(Decimal.ParseInt(p[3]).value)]);
    }
  }

  /** Any other count: only the first four components survive, so a dev suffix is dropped and fewer than four come back unchanged. */
  lemma ReleaseTruncates(v: string)
    requires |Components(v)| != 4
    ensures IncrementRelease(v).Ok?
    ensures |Components(v)| < 4 ==> IncrementRelease(v) == Ok(v)
    ensures |Components(v)| > 4 ==> Components(IncrementRelease(v).value) == Components(v)[..4]
  {
    var p := Components(v);
    if |p| > 4 {
      ComponentsOfRender(p[..4]);
    } else {
      Text.JoinSplit(v, '.');
    }
  }

  /** Four components: the fourth is bumped and `dev1` is appended. */
  lemma DevFromFour(v: string)
    requires |Components(v)| == 4
    ensures var p := Components(v);
      match Decimal.ParseInt(p[3])
      case None => IncrementDev(v) == Err(ValueError)
      case Some(n) => IncrementDev(v).Ok? && Components(IncrementDev(v).value) == p[..3] + [Bumped(n), "dev1"]
  {
    var p := Components(v);
    if Decimal.ParseInt(p[3]).Some? {
      var b := Bumped(Decimal.ParseInt(p[3]).value);
      BumpedHasNoDot(Decimal.ParseInt(p[3]).value);
      var q := p[..3] + [b, "dev1"];
      assert forall k :: 0 <= k < |q| ==> '.' !in q[k];
      ComponentsOfRender(q);
    }
  }

  /** Five or more components: the first four are kept and the fifth, read past its first three characters, is bumped behind `dev`. */
  lemma DevFromFiveOrMore(v: string)
    requires |Components(v)| >= 5
    ensures var p := Components(v);
      var digits := if |p[4]| >= 3 then p[4][3..] else [];
      match Decimal.ParseInt(digits)
      case None => IncrementDev(v) == Err(ValueError)
      case Some(n) => IncrementDev(v).Ok? && Components(IncrementDev(v).value) == p[..4] + ["dev" + Bumped(n)]
  {
    var p := Components(v);
    var digits := if |p[4]| >= 3 then p[4][3..] else [];
    if Decimal.ParseInt(digits).Some? {
      var n := Decimal.ParseInt(digits).value;
      BumpedHasNoDot(n);
      assert '.' !in "dev" + Bumped(n);
      ComponentsOfRender(p[..4] + ["dev" + Bumped(n)]);
    }
  }

  /** Fewer than four components: the fifth component does not exist. */
  lemma DevNeedsFourComponents(v: string)
    requires |Components(v)| < 4
    ensures IncrementDev(v) == Err(IndexError)
  {
  }

  /** A bumped release has at most four components; a bumped dev version has exactly five and keeps the first three. */
  lemma Shapes(v: string)
    ensures IncrementRelease(v).Ok? ==> |Components(IncrementRelease(v).value)| <= 4
    ensures IncrementDev(v).Ok? ==>
      var r := Components(IncrementDev(v).value);
      |r| == 5 && r[..3] == Components(v)[..3]
  {
    var p := Components(v);
    if |p| == 4 {
      ReleaseBumpsFourth(v);
      DevFromFour(v);
    } else {
      ReleaseTruncates(v);
      if |p| >= 5 {
        DevFromFiveOrMore(v);
      }
    }
  }

  /** Bumping the dev counter and then releasing gives the same release as releasing directly. */
  lemma ReleaseAfterDev(v: string)
    requires |Components(v)| == 4
    requires IncrementDev(v).Ok?
    ensures IncrementRelease(IncrementDev(v).value) == IncrementRelease(v)
  {
    var p := Components(v);
    DevFromFour(v);
    ReleaseBumpsFourth(v);
    var d := IncrementDev(v).value;
    ReleaseTruncates(d);
    var n := Decimal.ParseInt(p[3]).value;
    BumpedHasNoDot(n);
    assert Components(d)[..4] == p[..3] + [Bumped(n)];
    ComponentsOfRender(p[..3] + [Bumped(n)]);
    Text.JoinSplit(IncrementRelease(d).value, '.');
    Text.JoinSplit(IncrementRelease(v).value, '.');
  }

  /** `int('1') == 1` and `str(2) == '2'`. */
  lemma SmallNumbers()
    ensures Decimal.ParseInt("1") == Some(1) && Bumped(1) == "2"
  {
    assert Decimal.IntToString(1) == "1" by {
      assert Decimal.DigitChar(1) == '1';
    }
    Decimal.ParseIntToString(1);
    assert Decimal.DigitChar(2) == '2';
  }

  /** A `dev1` version bumps to `dev2` on the same four components. */
  lemma DevOneToTwo(d: string)
    requires |Components(d)| == 5 && Components(d)[4] == "dev1"
    ensures IncrementDev(d).Ok?
    ensures Components(IncrementDev(d).value) == Components(d)[..4] + ["dev2"]
  {
    var p := Components(d);
    assert p[4][3..] == "1";
    SmallNumbers();
    DevFromFiveOrMore(d);
    assert "dev" + Bumped(1) == "dev2";
    assert Components(IncrementDev(d).value) == p[..4] + ["dev" + Bumped(1)];
  }

  /** Two dev bumps from a release give `dev2` on the bumped release. */
  lemma DevTwice(v: string)
    requires |Components(v)| == 4
    requires IncrementDev(v).Ok?
    ensures var n := Decimal.ParseInt(Components(v)[3]).value;
      IncrementDev(IncrementDev(v).value).Ok?
      && Components(IncrementDev(IncrementDev(v).value).value) == Components(v)[..3] + [Bumped(n), "dev2"]
  {
    var p := Components(v);
    var n := Decimal.ParseInt(p[3]).value;
    DevFromFour(v);
    var d := IncrementDev(v).value;
    assert Components(d) == p[..3] + [Bumped(n), "dev1"];
    DevOneToTwo(d);
    assert Components(d)[..4] + ["dev2"] == p[..3] + [Bumped(n), "dev2"];
  }
}
