/**
 * The `--vars key=value,...` flag of the generator (generator/flagparser.go):
 * a comma-separated list of assignments parsed into seven fields, and the
 * tfvars block written from them.
 */
module FlagParser {
  import opened Wrappers
  import opened Strings

  /** The fields of `Vars`, as one value. */
  datatype VarsFields = VarsFields(
    projectName: string,
    projectID: string,
    region: string,
    zones: string,
    serviceAccountID: string,
    private: bool,
    useIstio: bool)

  const NoVars := VarsFields("", "", "", "", "", false, false)

  // ---------------------------------------------------------------------------
  // Values

  const TrueSpellings: set<string> := {"1", "t", "T", "TRUE", "true", "True"}
  const FalseSpellings: set<string> := {"0", "f", "F", "FALSE", "false", "False"}

  /** `strconv.ParseBool`: the accepted spellings of true and of false; anything else is a syntax error. */
  function ParseBool(s: string): (r: Result<bool, string>)
  {
    if s in TrueSpellings then Ok(true)
    else if s in FalseSpellings then Ok(false)
    else Err("invalid syntax")
  }

  /** `b, _ := strconv.ParseBool(s)`: the error is dropped, and with it the value is `false`. */
  function ParseBoolOrFalse(s: string): (b: bool)
    ensures b <==> s in TrueSpellings
    ensures !b <==> s in FalseSpellings || ParseBool(s).Err?
  {
    match ParseBool(s)
    case Ok(v) => v
    case Err(_) => false
  }

  /** The `zones` value: split on single spaces, each piece quoted, joined by commas. */
  function QuoteZones(v: string): (r: string)
  {
    "\"" + Join(Split(v, ' '), "\",\"") + "\""
  }

  // ---------------------------------------------------------------------------
  // Set

  const InvalidInput := "input is invalid"

  /** The keys Set knows. */
  const Keys: set<string> :=
    {"project_name", "project_id", "region", "zones", "service_account_id", "private", "use-istio"}

  /** One `key=value` piece: the text between the first and second `=` is the value. */
  function ApplyPair(f: VarsFields, piece: string): (r: Result<VarsFields, string>)
    ensures r == Err(InvalidInput) <==> |Split(piece, '=')| < 2
  {
    var kv := Split(piece, '=');
    if |kv| < 2 then Err(InvalidInput)
    else
      var key, value := kv[0], kv[1];
      if key == "project_name" then Ok(f.(projectName := value))
      else if key == "project_id" then Ok(f.(projectID := value))
      else if key == "region" then Ok(f.(region := value))
      else if key == "zones" then Ok(f.(zones := QuoteZones(value)))
      else if key == "service_account_id" then Ok(f.(serviceAccountID := value))
      else if key == "private" then Ok(f.(private := ParseBoolOrFalse(value)))
      else if key == "use-istio" then Ok(f.(private := ParseBoolOrFalse(value)))
      else UnknownIsNotInvalid(key); Err("Unknownn field:" + key)
  }

  /** The fields after a run of pieces, and the error that stopped it, if any. */
  datatype SetOutcome = SetOutcome(fields: VarsFields, err: Option<string>)

  /** The pieces applied left to right; the first error stops the run and keeps what was set before it. */
  function ApplyPieces(f: VarsFields, pieces: seq<string>): (r: SetOutcome)
    decreases |pieces|
  {
    if pieces == [] then SetOutcome(f, None)
    else
      match ApplyPair(f, pieces[0])
      case Err(e) => SetOutcome(f, Some(e))
      case Ok(g) => ApplyPieces(g, pieces[1..])
  }

  // ---------------------------------------------------------------------------
  // Output

  /** A `key="value"` line of the tfvars block. */
  function Line(key: string, value: string): (r: string)
  {
    key + "=\"" + value + "\""
  }

  /** The `zones=[...]` line: the stored value already holds the quotes and commas. */
  function ZonesLine(zones: string): (r: string)
  {
    "zones=[" + zones + "]"
  }

  /** The lines of the tfvars block, in order. */
  function TFVarsLines(f: VarsFields): (r: seq<string>)
  {
    [Line("project_name", f.projectName), Line("project_id", f.projectID), Line("service_account_id", f.serviceAccountID)]
    + (if f.zones != "" then [ZonesLine(f.zones)] else [])
    + (if f.region != "" then [Line("region", f.region)] else [])
  }

  /** TFVars: the three fixed lines, then the zones and region lines when those are set. */
  function TFVarsText(f: VarsFields): (r: string)
  {
    var out := Line("project_name", f.projectName) + "\n" + Line("project_id", f.projectID) + "\n"
      + Line("service_account_id", f.serviceAccountID);
    var out := if f.zones != "" then out + "\n" + ZonesLine(f.zones) else out;
    if f.region != "" then out + "\n" + Line("region", f.region) else out
  }

  /** `%t`. */
  function BoolText(b: bool): (r: string)
  {
    if b then "true" else "false"
  }

  /** `key=\"value\"`, as the raw format literal of String prints it. */
  function Escaped(key: string, value: string): (r: string)
  {
    key + @"=\""" + value + @"\"""
  }

  /** The service account piece: its opening quote and backslash are swapped in the format. */
  function ServiceAccountPiece(sa: string): (r: string)
  {
    @"service_account_id=""\" + sa + @"\"""
  }

  /**
   * The comma-separated pieces of String. The format is a raw literal, so
   * each quote it prints is preceded by a backslash; for the service
   * account the opening quote and backslash come out swapped.
   */
  function StringPieces(f: VarsFields): (r: seq<string>)
  {
    [Escaped("project_name", f.projectName), Escaped("project_id", f.projectID),
     Escaped("region", f.region), Escaped("zones", f.zones),
     ServiceAccountPiece(f.serviceAccountID),
     Escaped("private", BoolText(f.private)), Escaped("use-istio", BoolText(f.useIstio))]
  }

  /** String: the seven fields in one line, separated by commas. */
  function StringText(f: VarsFields): (r: string)
  {
    Escaped("project_name", f.projectName) + "," + Escaped("project_id", f.projectID) + ","
    + Escaped("region", f.region) + "," + Escaped("zones", f.zones) + ","
    + ServiceAccountPiece(f.serviceAccountID) + ","
    + Escaped("private", BoolText(f.private)) + "," + Escaped("use-istio", BoolText(f.useIstio))
  }

  // ---------------------------------------------------------------------------
  // The flag value

  /** Vars: the flag's target, updated in place by Set. */
  class Vars {
    var projectName: string
    var projectID: string
    var region: string
    var zones: string
    var serviceAccountID: string
    var private: bool
    var useIstio: bool

    function Fields(): (r: VarsFields)
      reads this
    {
      VarsFields(projectName, projectID, region, zones, serviceAccountID, private, useIstio)
    }

    /** NewVars: every field empty or false. */
    constructor ()
      ensures Fields() == NoVars
    {
      projectName, projectID, region, zones, serviceAccountID := "", "", "", "", "";
      private, useIstio := false, false;
    }

    /** Set: the comma-separated pieces are applied in order until one fails. */
    method Set(s: string) returns (err: Option<string>)
      modifies this
      ensures SetOutcome(Fields(), err) == ApplyPieces(old(Fields()), Split(s, ','))
    {
      var pieces := Split(s, ',');
      var i := 0;
      while i < |pieces|
        invariant 0 <= i <= |pieces|
        invariant ApplyPieces(old(Fields()), pieces) == ApplyPieces(Fields(), pieces[i..])
      {
        ApplyPiecesAt(Fields(), pieces, i);
        var kv := Split(pieces[i], '=');
        if |kv| < 2 {
          return Some(InvalidInput);
        }
        var key, value := kv[0], kv[1];
        if key == "project_name" {
          projectName := value;
        } else if key == "project_id" {
          projectID := value;
        } else if key == "region" {
          region := value;
        } else if key == "zones" {
          zones := QuoteZones(value);
        } else if key == "service_account_id" {
          serviceAccountID := value;
        } else if key == "private" {
          private := ParseBoolOrFalse(value);
        } else if key == "use-istio" {
          private := ParseBoolOrFalse(value);
        } else {
          return Some("Unknownn field:" + key);
        }
        i := i + 1;
      }
      return None;
    }

    /** The tfvars block: its lines, in order, joined by newlines. */
    function TFVars(): (r: string)
      reads this
      ensures r == Join(TFVarsLines(Fields()), "\n")
    {
      TFVarsIsJoinedLines(Fields());
      TFVarsText(Fields())
    }

    /** The flag's text: its seven pieces, in order, joined by commas. */
    function String(): (r: string)
      reads this
      ensures r == Join(StringPieces(Fields()), ",")
    {
      StringIsJoinedPieces(Fields());
      StringText(Fields())
    }

    /** The flag's type name. */
    function Type(): (t: string)
      ensures t == "Vars"
    {
      "Vars"
    }
  }

  // ---------------------------------------------------------------------------
  // What Set and TFVars promise

  /** `k=v` followed by nothing or by a further `=...`: the key is k and the value v. */
  lemma SplitKeyValue(k: string, v: string, rest: string)
    requires '=' !in k && '=' !in v && (rest == "" || rest[0] == '=')
    ensures var kv := Split(k + "=" + v + rest, '='); |kv| >= 2 && kv[0] == k && kv[1] == v
  {
    var t := v + rest;
    assert k + "=" + v + rest == k + ['='] + t;
    SplitCons(k, '=', t);
    SplitHead(v, '=', rest);
  }

  /** A piece is rejected as invalid input exactly when it holds no `=`. */
  lemma InvalidExactlyWithoutEquals(f: VarsFields, piece: string)
    ensures ApplyPair(f, piece) == Err(InvalidInput) <==> '=' !in piece
  {
    SeparatorMeansTwoPieces(piece, '=');
  }

  lemma UnknownIsNotInvalid(key: string)
    ensures "Unknownn field:" + key != InvalidInput
  {
    assert ("Unknownn field:" + key)[0] != InvalidInput[0];
  }

  /** An empty flag value is invalid input and changes nothing. */
  lemma EmptyInputInvalid(f: VarsFields)
    ensures ApplyPieces(f, Split("", ',')) == SetOutcome(f, Some(InvalidInput))
  {
    InvalidExactlyWithoutEquals(f, "");
  }

  /** A key outside the seven is reported by name. */
  lemma UnknownKeyRejected(f: VarsFields, k: string, v: string, rest: string)
    requires '=' !in k && '=' !in v && (rest == "" || rest[0] == '=')
    requires k !in Keys
    ensures ApplyPair(f, k + "=" + v + rest) == Err("Unknownn field:" + k)
  {
    SplitKeyValue(k, v, rest);
  }

  /**
   * Each key writes its field from the text between the first and the
   * second `=`; `use-istio` writes Private, and no key writes UseIstio.
   */
  lemma KeyWritesField(f: VarsFields, k: string, v: string, rest: string)
    requires '=' !in k && '=' !in v && (rest == "" || rest[0] == '=')
    requires k in Keys
    ensures var r := ApplyPair(f, k + "=" + v + rest);
      && r.Ok? && r.value.useIstio == f.useIstio
      && (k == "project_name" ==> r.value == f.(projectName := v))
      && (k == "project_id" ==> r.value == f.(projectID := v))
      && (k == "region" ==> r.value == f.(region := v))
      && (k == "zones" ==> r.value == f.(zones := QuoteZones(v)))
      && (k == "service_account_id" ==> r.value == f.(serviceAccountID := v))
      && (k == "private" ==> r.value == f.(private := ParseBoolOrFalse(v)))
      && (k == "use-istio" ==> r.value == f.(private := ParseBoolOrFalse(v)))
  {
    SplitKeyValue(k, v, rest);
  }

  /** A space-separated list of zones is stored quoted and comma-separated. */
  lemma ZonesQuoted(zs: seq<string>)
    requires |zs| >= 1 && forall k :: 0 <= k < |zs| ==> ' ' !in zs[k]
    ensures QuoteZones(Join(zs, " ")) == "\"" + Join(zs, "\",\"") + "\""
  {
    assert " " == [' '];
    SplitJoin(zs, ' ');
  }

  /** Running the pieces from i applies piece i first. */
  lemma ApplyPiecesAt(f: VarsFields, pieces: seq<string>, i: nat)
    requires i < |pieces|
    ensures var step := ApplyPair(f, pieces[i]);
      ApplyPieces(f, pieces[i..]) ==
        if step.Ok? then ApplyPieces(step.value, pieces[i + 1..]) else SetOutcome(f, Some(step.error))
  {
    assert pieces[i..][1..] == pieces[i + 1..];
  }

  /** Running a + b is running a, then b from where a stopped, if a did not fail. */
  lemma {:induction false} ApplyPiecesAppend(f: VarsFields, a: seq<string>, b: seq<string>)
    ensures ApplyPieces(f, a + b) ==
      var ra := ApplyPieces(f, a);
      if ra.err.None? then ApplyPieces(ra.fields, b) else ra
    decreases |a|
  {
    if a != [] {
      assert (a + b)[0] == a[0];
      assert (a + b)[1..] == a[1..] + b;
      var p := ApplyPair(f, a[0]);
      if p.Ok? {
        ApplyPiecesAppend(p.value, a[1..], b);
        assert ApplyPieces(f, a + b) == ApplyPieces(p.value, a[1..] + b);
        assert ApplyPieces(f, a) == ApplyPieces(p.value, a[1..]);
      } else {
        assert ApplyPieces(f, a + b) == SetOutcome(f, Some(p.error));
        assert ApplyPieces(f, a) == SetOutcome(f, Some(p.error));
      }
    } else {
      assert a + b == b;
    }
  }

  /** A piece without `=` stops the run with "input is invalid", keeping what earlier pieces set. */
  lemma ErrorKeepsEarlierPieces(f: VarsFields, a: seq<string>, bad: string, b: seq<string>)
    requires ApplyPieces(f, a).err.None? && '=' !in bad
    ensures ApplyPieces(f, a + [bad] + b) == SetOutcome(ApplyPieces(f, a).fields, Some(InvalidInput))
  {
    ApplyPiecesAppend(f, a, [bad] + b);
    assert a + [bad] + b == a + ([bad] + b);
    InvalidExactlyWithoutEquals(ApplyPieces(f, a).fields, bad);
  }

  /** Of two assignments to the same key, the later one wins. */
  lemma LaterDuplicateWins(f: VarsFields, k: string, x: string, y: string)
    requires k in Keys
    requires '=' !in x && '=' !in y
    ensures var r := ApplyPieces(f, [k + "=" + x, k + "=" + y]);
      && r.err.None?
      && r.fields == ApplyPieces(f, [k + "=" + y]).fields
  {
    var px, py := k + "=" + x, k + "=" + y;
    assert px + "" == px && py + "" == py;
    KeyWritesField(f, k, x, "");
    var g := ApplyPair(f, px).value;
    KeyWritesField(g, k, y, "");
    KeyWritesField(f, k, y, "");
    assert ApplyPieces(f, [px]) == SetOutcome(g, None);
    ApplyPiecesAppend(f, [px], [py]);
    assert [px] + [py] == [px, py];
  }

  /**
   * `private` and `use-istio` both write Private, so of two assignments to
   * either key the later one decides Private, and UseIstio is never touched.
   */
  lemma LaterPrivateWins(f: VarsFields, k1: string, k2: string, x: string, y: string)
    requires k1 in {"private", "use-istio"} && k2 in {"private", "use-istio"}
    requires '=' !in x && '=' !in y
    ensures var r := ApplyPieces(f, [k1 + "=" + x, k2 + "=" + y]);
      && r.err.None?
      && r.fields == f.(private := ParseBoolOrFalse(y))
  {
    var px, py := k1 + "=" + x, k2 + "=" + y;
    assert px + "" == px && py + "" == py;
    KeyWritesField(f, k1, x, "");
    var g := ApplyPair(f, px).value;
    KeyWritesField(g, k2, y, "");
    assert ApplyPieces(f, [px]) == SetOutcome(g, None);
    ApplyPiecesAppend(f, [px], [py]);
    assert [px] + [py] == [px, py];
  }

  /** `zones=a b` stores `"a","b"`. */
  lemma ZonesExample()
    ensures QuoteZones("a b") == "\"a\",\"b\""
  {
    var a, b := "a", "b";
    assert "a b" == Join([a, b], " ");
    ZonesQuoted([a, b]);
    assert Join([a, b], "\",\"") == a + "\",\"" + b;
  }

  /** A `key="value"` line has a newline only if its key or value does. */
  lemma LineHasNoNewline(k: string, v: string)
    requires '\n' !in k && '\n' !in v
    ensures '\n' !in Line(k, v)
  {
    assert Line(k, v) == k + ['=', '"'] + v + ['"'];
  }

  /** The lines of the tfvars block hold no newline when the fields hold none. */
  lemma TFVarsLinesHaveNoNewline(f: VarsFields)
    requires '\n' !in f.projectName && '\n' !in f.projectID && '\n' !in f.serviceAccountID
    requires '\n' !in f.zones && '\n' !in f.region
    ensures forall k :: 0 <= k < |TFVarsLines(f)| ==> '\n' !in TFVarsLines(f)[k]
  {
    var n := "project_name";
    assert '\n' !in n;
    LineHasNoNewline(n, f.projectName);
    var i := "project_id";
    assert '\n' !in i;
    LineHasNoNewline(i, f.projectID);
    var a := "service_account_id";
    assert '\n' !in a;
    LineHasNoNewline(a, f.serviceAccountID);
    var r := "region";
    assert '\n' !in r;
    LineHasNoNewline(r, f.region);
    assert ZonesLine(f.zones) == "zones=[" + f.zones + [']'];
  }

  /** The tfvars text is its lines joined by newlines. */
  lemma TFVarsIsJoinedLines(f: VarsFields)
    ensures TFVarsText(f) == Join(TFVarsLines(f), "\n")
  {
    var l1, l2, l3 := Line("project_name", f.projectName), Line("project_id", f.projectID),
      Line("service_account_id", f.serviceAccountID);
    var zl, rl := ZonesLine(f.zones), Line("region", f.region);
    var z, r := f.zones != "", f.region != "";
    var tail := (if z then [zl] else []) + (if r then [rl] else []);
    LinesShape(f);
    TextShape(f);
    JoinWithOptional(l3, zl, rl, z, r, tail);
    JoinFront(l1, l2, l3, tail, "\n");
  }

  lemma LinesShape(f: VarsFields)
    ensures TFVarsLines(f) ==
      [Line("project_name", f.projectName), Line("project_id", f.projectID), Line("service_account_id", f.serviceAccountID)]
      + ((if f.zones != "" then [ZonesLine(f.zones)] else []) + (if f.region != "" then [Line("region", f.region)] else []))
  {
  }

  lemma TextShape(f: VarsFields)
    ensures TFVarsText(f) ==
      Line("project_name", f.projectName) + "\n" + Line("project_id", f.projectID) + "\n"
      + (Line("service_account_id", f.serviceAccountID)
         + ((if f.zones != "" then "\n" + ZonesLine(f.zones) else "")
            + (if f.region != "" then "\n" + Line("region", f.region) else "")))
  {
  }

  lemma JoinFront(l1: string, l2: string, l3: string, tail: seq<string>, nl: string)
    ensures Join([l1, l2, l3] + tail, nl) == l1 + nl + l2 + nl + Join([l3] + tail, nl)
  {
    assert [l1, l2, l3] + tail == [l1] + ([l2] + ([l3] + tail));
    JoinCons(l2, [l3] + tail, nl);
    JoinCons(l1, [l2] + ([l3] + tail), nl);
  }

  lemma JoinWithOptional(l3: string, zl: string, rl: string, z: bool, r: bool, tail: seq<string>)
    requires tail == (if z then [zl] else []) + (if r then [rl] else [])
    ensures Join([l3] + tail, "\n") ==
      l3 + ((if z then "\n" + zl else "") + (if r then "\n" + rl else ""))
  {
    var nl := "\n";
    if z && r {
      JoinCons(zl, [rl], nl);
      JoinCons(l3, [zl, rl], nl);
      assert [l3] + tail == [l3, zl, rl];
    } else if z {
      JoinCons(l3, [zl], nl);
    } else if r {
      JoinCons(l3, [rl], nl);
    } else {
      assert [l3] + tail == [l3];
    }
  }

  /** The tfvars block is its lines joined by newlines, so splitting it on newlines gives them back. */
  lemma TFVarsSplitsIntoLines(f: VarsFields)
    requires '\n' !in f.projectName && '\n' !in f.projectID && '\n' !in f.serviceAccountID
    requires '\n' !in f.zones && '\n' !in f.region
    ensures Split(TFVarsText(f), '\n') == TFVarsLines(f)
  {
    TFVarsIsJoinedLines(f);
    TFVarsLinesHaveNoNewline(f);
    SplitJoin(TFVarsLines(f), '\n');
  }

  /** After `k=v` is set for a plain text key and a non-empty v, the tfvars block holds the line `k="v"`. */
  lemma SetThenTFVarsHasLine(f: VarsFields, k: string, v: string)
    requires k in {"project_name", "project_id", "service_account_id", "region"}
    requires v != "" && '=' !in v && ',' !in v && '\n' !in v
    ensures var r := ApplyPieces(f, Split(k + "=" + v, ','));
      r.err.None? && Line(k, v) in Split(TFVarsText(r.fields), '\n')
  {
    var g := SetOnePlainKey(f, k, v);
    PlainLineHasNoNewline(k, v);
    var j := PlainLineAt(g, k);
    LineSurvivesSplit(g, j);
  }

  lemma PlainLineHasNoNewline(k: string, v: string)
    requires k in {"project_name", "project_id", "service_account_id", "region"} && '\n' !in v
    ensures '\n' !in Line(k, v)
  {
    assert '\n' !in k;
    LineHasNoNewline(k, v);
  }

  /** Where the line of a plain text key sits in the tfvars block (region's only when set). */
  lemma PlainLineAt(f: VarsFields, k: string) returns (j: nat)
    requires k in {"project_name", "project_id", "service_account_id"} || (k == "region" && f.region != "")
    ensures j < |TFVarsLines(f)|
    ensures k == "project_name" ==> TFVarsLines(f)[j] == Line(k, f.projectName)
    ensures k == "project_id" ==> TFVarsLines(f)[j] == Line(k, f.projectID)
    ensures k == "service_account_id" ==> TFVarsLines(f)[j] == Line(k, f.serviceAccountID)
    ensures k == "region" ==> TFVarsLines(f)[j] == Line(k, f.region)
  {
    LinesShape(f);
    if k == "project_name" {
      j := 0;
    } else if k == "project_id" {
      j := 1;
    } else if k == "service_account_id" {
      j := 2;
    } else {
      j := |TFVarsLines(f)| - 1;
    }
  }

  /** Setting one plain text key without a comma succeeds and writes that field alone. */
  lemma SetOnePlainKey(f: VarsFields, k: string, v: string) returns (g: VarsFields)
    requires k in {"project_name", "project_id", "service_account_id", "region"}
    requires '=' !in v && ',' !in v
    ensures ApplyPieces(f, Split(k + "=" + v, ',')) == SetOutcome(g, None)
    ensures k == "project_name" ==> g == f.(projectName := v)
    ensures k == "project_id" ==> g == f.(projectID := v)
    ensures k == "service_account_id" ==> g == f.(serviceAccountID := v)
    ensures k == "region" ==> g == f.(region := v)
  {
    var piece := k + "=" + v;
    assert ',' !in k && '=' !in k;
    assert ',' !in piece;
    assert piece + "" == piece;
    KeyWritesField(f, k, v, "");
    g := ApplyPair(f, piece).value;
    assert ApplyPieces(f, [piece]) == SetOutcome(g, None);
  }

  /** A tfvars line without a newline is one of the lines the block splits into, whatever the other lines hold. */
  lemma LineSurvivesSplit(f: VarsFields, j: nat)
    requires j < |TFVarsLines(f)| && '\n' !in TFVarsLines(f)[j]
    ensures TFVarsLines(f)[j] in Split(TFVarsText(f), '\n')
  {
    TFVarsIsJoinedLines(f);
    PieceSurvivesSplit(TFVarsLines(f), '\n', j);
  }

  /** When no text field holds a comma, String splits on commas into its seven pieces, one per field. */
  lemma StringSplitsIntoFields(f: VarsFields)
    requires ',' !in f.projectName && ',' !in f.projectID && ',' !in f.region
    requires ',' !in f.zones && ',' !in f.serviceAccountID
    ensures Split(StringText(f), ',') == StringPieces(f)
  {
    var ps := StringPieces(f);
    StringIsJoinedPieces(f);
    StringPiecesHaveNoComma(f);
    SplitJoin(ps, ',');
  }

  lemma StringIsJoinedPieces(f: VarsFields)
    ensures StringText(f) == Join(StringPieces(f), ",")
  {
    var ps := StringPieces(f);
    JoinSeven(ps[0], ps[1], ps[2], ps[3], ps[4], ps[5], ps[6], ",");
    assert ps == [ps[0], ps[1], ps[2], ps[3], ps[4], ps[5], ps[6]];
  }

  lemma JoinSeven(a: string, b: string, c: string, d: string, e: string, f: string, g: string, sep: string)
    ensures Join([a, b, c, d, e, f, g], sep) == a + sep + b + sep + c + sep + d + sep + e + sep + f + sep + g
  {
    JoinCons(f, [g], sep);
    JoinCons(e, [f, g], sep);
    assert [e] + [f, g] == [e, f, g];
    JoinCons(d, [e, f, g], sep);
    assert [d] + [e, f, g] == [d, e, f, g];
    JoinCons(c, [d, e, f, g], sep);
    assert [c] + [d, e, f, g] == [c, d, e, f, g];
    JoinCons(b, [c, d, e, f, g], sep);
    assert [b] + [c, d, e, f, g] == [b, c, d, e, f, g];
    JoinCons(a, [b, c, d, e, f, g], sep);
    assert [a] + [b, c, d, e, f, g] == [a, b, c, d, e, f, g];
  }

  lemma EscapedHasNoComma(key: string, value: string)
    requires ',' !in key && ',' !in value
    ensures ',' !in Escaped(key, value)
  {
    assert Escaped(key, value) == key + ['=', '\\', '"'] + value + ['\\', '"'];
  }

  lemma StringPiecesHaveNoComma(f: VarsFields)
    requires ',' !in f.projectName && ',' !in f.projectID && ',' !in f.region
    requires ',' !in f.zones && ',' !in f.serviceAccountID
    ensures forall k :: 0 <= k < |StringPieces(f)| ==> ',' !in StringPieces(f)[k]
  {
    var keys := ["project_name", "project_id", "region", "zones", "private", "use-istio"];
    assert forall k :: 0 <= k < |keys| ==> ',' !in keys[k];
    EscapedHasNoComma(keys[0], f.projectName);
    EscapedHasNoComma(keys[1], f.projectID);
    EscapedHasNoComma(keys[2], f.region);
    EscapedHasNoComma(keys[3], f.zones);
    EscapedHasNoComma(keys[4], BoolText(f.private));
    EscapedHasNoComma(keys[5], BoolText(f.useIstio));
    assert ServiceAccountPiece(f.serviceAccountID) ==
      "service_account_id=" + ['"', '\\'] + f.serviceAccountID + ['\\', '"'];
  }
}
