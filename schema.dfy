/**
 * The `parse` and `stringify` functions attached to fields of the
 * component's attribute schema. Each takes the attribute's text (or the
 * parsed value) and returns the normalised value the component works with.
 * `x || d` in the source replaces the empty string by `d`; that is `OrDefault`.
 */
module Schema {
  import opened Text
  import Engine
  import opened Wrappers

  /** `x || d` for a string `x`. */
  function OrDefault(x: string, d: string): (r: string)
    ensures d != [] ==> r != []
    ensures x != [] ==> r == x
  {
    if x == [] then d else x
  }

  // ---------------------------------------------------------------- relative

  /** `relative.parse`: lower-case, `"local"` when empty. */
  function ParseRelative(x: string): (r: string)
    ensures r != [] && IsLowerCase(r)
    ensures x == [] ==> r == "local"
    ensures x != [] ==> SameIgnoringCase(r, x)
  {
    LowerCharacterised(OrDefault(x, "local"), Lower(OrDefault(x, "local")));
    Lower(OrDefault(x, "local"))
  }

  lemma ParseRelativeIdempotent(x: string)
    ensures ParseRelative(ParseRelative(x)) == ParseRelative(x)
  {
    LowerIdempotent(OrDefault(x, "local"));
  }

  /** The parsed mode is `"world"` exactly when the text is "world" in any case. */
  lemma ParseRelativeWorld(x: string)
    ensures ParseRelative(x) == "world" <==> Lower(x) == "world"
  {
  }

  /**
   * A parsed mode is never `"World"`: the capital W cannot survive
   * lower-casing.
   */
  lemma ParseRelativeNeverCapitalWorld(x: string)
    ensures ParseRelative(x) != "World"
  {
    assert !IsUpperLetter(ParseRelative(x)[0]);
    assert IsUpperLetter("World"[0]);
  }

  // ---------------------------------------------------------------- distributions

  /**
   * `(x || d).toUpperCase()`: the shape shared by `distribution.parse` and
   * the three `...Distribution` override parsers, which differ only in `d`.
   */
  function ParseUpperOr(x: string, d: string): (r: string)
    ensures IsUpperCase(r)
    ensures x == [] ==> r == Upper(d)
    ensures x != [] ==> SameIgnoringCase(r, x)
    ensures d != [] ==> r != []
  {
    UpperCharacterised(OrDefault(x, d), Upper(OrDefault(x, d)));
    Upper(OrDefault(x, d))
  }

  /**
   * `distribution.parse`, default `"BOX"`: the parsed base names a
   * distribution exactly when the text does up to case, or is empty.
   */
  function ParseDistribution(x: string): (r: string)
    ensures x == [] ==> r == "BOX"
    ensures Engine.IsDistributionKey(r) <==> x == [] || Engine.IsDistributionKey(Upper(x))
  {
    ParseUpperOr(x, "BOX")
  }

  /**
   * `parse` of `positionDistribution`, `velocityDistribution` and
   * `accelerationDistribution`, default `"NONE"`: the parsed override names
   * a distribution exactly when the text does up to case.
   */
  function ParseDistributionOverride(x: string): (r: string)
    ensures x == [] ==> r == "NONE"
    ensures Engine.IsDistributionKey(r) <==> Engine.IsDistributionKey(Upper(x))
  {
    ParseUpperOr(x, "NONE")
  }

  lemma ParseUpperOrIdempotent(x: string, d: string)
    ensures ParseUpperOr(ParseUpperOr(x, d), d) == ParseUpperOr(x, d)
  {
    UpperIdempotent(OrDefault(x, d));
  }

  lemma ParseDistributionIdempotent(x: string)
    ensures ParseDistribution(ParseDistribution(x)) == ParseDistribution(x)
    ensures ParseDistributionOverride(ParseDistributionOverride(x)) == ParseDistributionOverride(x)
  {
    ParseUpperOrIdempotent(x, "BOX");
    ParseUpperOrIdempotent(x, "NONE");
  }

  /**
   * Neither the default `"NONE"` nor an explicit "none" in any case is a
   * key of `SPE.distributions`, so both leave the base distribution in charge.
   */
  lemma UnsetOverrideIsNoKey()
    ensures !Engine.IsDistributionKey(ParseDistributionOverride(""))
    ensures forall x :: Lower(x) == "none" ==> !Engine.IsDistributionKey(ParseDistributionOverride(x))
  {
    forall x | Lower(x) == "none"
      ensures !Engine.IsDistributionKey(ParseDistributionOverride(x))
    {
      assert |x| == 4 && LowerChar(x[0]) == 'n';
      assert Upper(x)[0] == 'N';
      assert Upper(x) != "DISC";
    }
  }

  /** A parsed override names a distribution exactly when its text does, ignoring case. */
  lemma ParsedOverrideKey(x: string, d: Engine.Distribution)
    ensures Engine.DistributionNamed(ParseDistributionOverride(x)) == Some(d)
        <==> Upper(x) == Engine.DistributionKey(d)
  {
  }

  // ---------------------------------------------------------------- direction

  /** `direction.parse`: 1 for "forward" in any case, otherwise -1. */
  function ParseDirection(x: string): (r: int)
    ensures r == 1 || r == -1
    ensures r == 1 <==> SameIgnoringCase(x, "forward")
  {
    LowerCharacterised(x, "forward");
    if Lower(x) == "forward" then 1 else -1
  }

  /** `direction.stringify`: `"forward"` for 1, `"backward"` for every other value. */
  function StringifyDirection(d: int): (r: string)
    ensures d == 1 ==> r == "forward"
    ensures d != 1 ==> r == "backward"
    ensures ParseDirection(r) == (if d == 1 then 1 else -1)
  {
    var r := if d == 1 then "forward" else "backward";
    assert !SameIgnoringCase("backward", "forward") by {
      assert LowerChar("backward"[0]) != LowerChar("forward"[0]);
    }
    r
  }

  /** For the two documented words, stringify undoes parse up to case. */
  lemma DirectionRoundTrip(x: string)
    requires Lower(x) == "forward" || Lower(x) == "backward"
    ensures StringifyDirection(ParseDirection(x)) == Lower(x)
  {
  }

  // ---------------------------------------------------------------- blending

  /** First character upper-cased, the rest lower-cased. */
  function Capitalize(t: string): (r: string)
    requires t != []
    ensures |r| == |t| && SameIgnoringCase(r, t)
    ensures IsUpperCase(r[..1]) && IsLowerCase(r[1..])
  {
    [UpperChar(t[0])] + Lower(t[1..])
  }

  /** `blending.parse`: `"No"` when empty, then capitalised, then `"Blending"` appended. */
  function ParseBlending(x: string): (r: string)
    ensures |r| == |OrDefault(x, "No")| + 8
    ensures r[|r| - 8..] == "Blending"
    ensures r[..|r| - 8] == Capitalize(OrDefault(x, "No"))
  {
    var r := Capitalize(OrDefault(x, "No")) + "Blending";
    assert r[..|r| - 8] == Capitalize(OrDefault(x, "No"));
    r
  }

  /**
   * The diagnostic `blending.parse` logs: the parsed name is not a
   * blending constant of THREE. It does not stop the value from being used.
   */
  predicate BlendingDiagnosed(x: string)
  {
    Engine.BlendingNamed(ParseBlending(x)).None?
  }

  /** Capitalising matches a capitalised name exactly when the words agree ignoring case. */
  lemma CapitalizeMatches(w: string, n: string)
    requires w != [] && n != [] && IsUpperLetter(n[0]) && IsLowerCase(n[1..])
    ensures Capitalize(w) == n <==> Lower(w) == Lower(n)
  {
    var c := Capitalize(w);
    if c == n {
      forall i | 0 <= i < |w| ensures Lower(w)[i] == Lower(n)[i] {
        assert LowerChar(c[i]) == LowerChar(w[i]);
      }
    }
    if Lower(w) == Lower(n) {
      assert |c| == |n|;
      forall i | 0 <= i < |n| ensures c[i] == n[i] {
        assert LowerChar(w[i]) == LowerChar(n[i]);
        if i > 0 {
          assert n[i] == n[1..][i - 1];
        }
      }
    }
  }

  /** The six documented modes, as listed in the schema's `oneOf`. */
  function BlendingWord(b: Engine.Blending): string
  {
    match b
    case NoBlending => "No"
    case NormalBlending => "Normal"
    case AdditiveBlending => "Additive"
    case SubtractiveBlending => "Subtractive"
    case MultiplyBlending => "Multiply"
    case CustomBlending => "Custom"
  }

  /** Each constant's name in THREE is the mode's word followed by `"Blending"`. */
  lemma BlendingKeyOfWord(b: Engine.Blending)
    ensures Engine.BlendingKey(b) == BlendingWord(b) + "Blending"
  {
    match b
    case NoBlending =>
    case NormalBlending =>
    case AdditiveBlending =>
    case SubtractiveBlending =>
    case MultiplyBlending =>
    case CustomBlending =>
  }

  lemma AppendCancel(a: string, c: string, s: string)
    ensures a + s == c + s <==> a == c
  {
    if a + s == c + s {
      assert a == (a + s)[..|a|];
      assert c == (c + s)[..|c|];
    }
  }

  /**
   * The text parses to a given blending constant exactly when it is that
   * mode's word in some case (an empty text counts as "No").
   */
  lemma BlendingMatchesWord(x: string, b: Engine.Blending)
    ensures Engine.BlendingNamed(ParseBlending(x)) == Some(b)
        <==> Lower(OrDefault(x, "No")) == Lower(BlendingWord(b))
  {
    var w := OrDefault(x, "No");
    var n := BlendingWord(b);
    var r := ParseBlending(x);
    assert r == Capitalize(w) + "Blending";
    BlendingKeyOfWord(b);
    Engine.BlendingKeyRoundTrip(b);
    assert Engine.BlendingNamed(r) == Some(b) <==> r == Engine.BlendingKey(b);
    AppendCancel(Capitalize(w), n, "Blending");
    assert IsUpperLetter(n[0]) && IsLowerCase(n[1..]) by {
      match b
      case NoBlending =>
      case NormalBlending =>
      case AdditiveBlending =>
      case SubtractiveBlending =>
      case MultiplyBlending =>
      case CustomBlending =>
    }
    CapitalizeMatches(w, n);
  }

  /**
   * The diagnostic is raised exactly when the text is none of the six
   * documented modes, in any case.
   */
  lemma BlendingDiagnosedIff(x: string)
    ensures !BlendingDiagnosed(x)
        <==> exists b: Engine.Blending :: Lower(OrDefault(x, "No")) == Lower(BlendingWord(b))
  {
    if !BlendingDiagnosed(x) {
      var b := Engine.BlendingNamed(ParseBlending(x)).value;
      BlendingMatchesWord(x, b);
    }
    if exists b: Engine.Blending :: Lower(OrDefault(x, "No")) == Lower(BlendingWord(b)) {
      var b: Engine.Blending :| Lower(OrDefault(x, "No")) == Lower(BlendingWord(b));
      BlendingMatchesWord(x, b);
    }
  }

  /** `blending.stringify` as written: `x.substring(-8)`, which is `x` itself. */
  function StringifyBlending(x: string): (r: string)
    ensures r == x
  {
    Substring(x, -8)
  }

  /**
   * As written, stringify does not undo parse: parsing the stringified
   * value appends a second `"Blending"`, for every input.
   */
  lemma BlendingRoundTripFails(x: string)
    ensures ParseBlending(StringifyBlending(ParseBlending(x))) != ParseBlending(x)
  {
  }

  /** `blending.stringify` as evidently intended: `x.slice(0, -8)`, dropping `"Blending"`. */
  function StringifyBlendingIntended(x: string): (r: string)
    ensures |x| >= 8 ==> r + x[|x| - 8..] == x
    ensures |x| < 8 ==> r == []
  {
    DropLast(x, 8)
  }

  /** With the intended stringify, parse and stringify normalise and round-trip. */
  lemma {:induction false} BlendingRoundTripIntended(x: string)
    ensures StringifyBlendingIntended(ParseBlending(x)) == Capitalize(OrDefault(x, "No"))
    ensures ParseBlending(StringifyBlendingIntended(ParseBlending(x))) == ParseBlending(x)
  {
    var w := OrDefault(x, "No");
    var c := Capitalize(w);
    assert StringifyBlendingIntended(ParseBlending(x)) == c;
    assert c[0] == UpperChar(w[0]);
    assert IsUpperLetter(c[0]) || !IsLowerLetter(c[0]);
    assert c[1..] == Lower(w[1..]);
    LowerIdempotent(w[1..]);
    assert Capitalize(c) == c;
  }

  // ---------------------------------------------------------------- lists

  /**
   * `x.split(",").map(item)`: `parseFloatArray` (with `parseFloat`) and
   * `colorSpread.parse` (with `AFRAME.utils.coordinates.parse`).
   */
  function ParseList<T>(s: string, item: string -> T): (r: seq<T>)
    ensures |r| == Count(s, ',') + 1
    ensures forall i :: 0 <= i < |r| ==> r[i] == item(Split(s)[i])
  {
    var parts := Split(s);
    seq(|parts|, i requires 0 <= i < |parts| => item(parts[i]))
  }

  /**
   * `x.map(item).join(",")`: `colorSpread.stringify`. When no printed item
   * holds a comma, splitting the text gives back exactly the printed items.
   */
  function StringifyList<T>(vs: seq<T>, item: T -> string): (r: string)
    ensures |vs| >= 1 && (forall i :: 0 <= i < |vs| ==> ',' !in item(vs[i])) ==>
              Split(r) == seq(|vs|, i requires 0 <= i < |vs| => item(vs[i]))
  {
    var shown := seq(|vs|, i requires 0 <= i < |vs| => item(vs[i]));
    if |vs| >= 1 && (forall i :: 0 <= i < |vs| ==> ',' !in shown[i]) then
      SplitJoin(shown);
      Join(shown)
    else
      Join(shown)
  }

  /** Each comma-separated segment contributes one value, in order, with none dropped. */
  lemma ParseListSegments<T>(s: string, item: string -> T)
    ensures |ParseList(s, item)| == |Split(s)| && Join(Split(s)) == s
  {
    JoinSplit(s);
  }

  /** `norm` applied to each segment. */
  function MapSegments(segments: seq<string>, norm: string -> string): (r: seq<string>)
    ensures |r| == |segments|
    ensures forall i :: 0 <= i < |segments| ==> r[i] == norm(segments[i])
  {
    seq(|segments|, i requires 0 <= i < |segments| => norm(segments[i]))
  }

  /**
   * Stringify after parse normalises the text segment by segment: when
   * printing a parsed segment gives its normal form `norm`, the round trip
   * gives the normal forms of the segments, joined by commas. With `norm`
   * the identity this is the text itself.
   */
  lemma ListRoundTripText<T>(s: string, parse: string -> T, show: T -> string, norm: string -> string)
    requires forall t :: ',' !in t ==> show(parse(t)) == norm(t)
    ensures StringifyList(ParseList(s, parse), show) == Join(MapSegments(Split(s), norm))
  {
    var parts := Split(s);
    var shown := seq(|parts|, i requires 0 <= i < |parts| => show(ParseList(s, parse)[i]));
    forall i | 0 <= i < |parts| ensures shown[i] == MapSegments(parts, norm)[i] {
      assert ParseList(s, parse)[i] == parse(parts[i]);
      assert ',' !in parts[i];
    }
    assert shown == MapSegments(parts, norm);
  }

  /** With an item printer that exactly undoes the item parser, the text comes back unchanged. */
  lemma ListRoundTripIdentity<T>(s: string, parse: string -> T, show: T -> string)
    requires forall t :: ',' !in t ==> show(parse(t)) == t
    ensures StringifyList(ParseList(s, parse), show) == s
  {
    ListRoundTripText(s, parse, show, t => t);
    assert MapSegments(Split(s), t => t) == Split(s);
    JoinSplit(s);
  }

  /** Parse after stringify gives the values back when each value prints without commas and re-parses. */
  lemma ListRoundTripValues<T>(vs: seq<T>, parse: string -> T, show: T -> string)
    requires |vs| >= 1
    requires forall i :: 0 <= i < |vs| ==> ',' !in show(vs[i]) && parse(show(vs[i])) == vs[i]
    ensures ParseList(StringifyList(vs, show), parse) == vs
  {
    var shown := seq(|vs|, i requires 0 <= i < |vs| => show(vs[i]));
    SplitJoin(shown);
  }
}
