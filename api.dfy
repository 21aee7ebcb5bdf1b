/**
 The API client: request signing, the `Filters` and URL handling of GET and
 POST calls, and the "smart fields" merge that fills in default column masks.
 A request is not sent; the model stops at the descriptor handed to the
 HTTP library.
 */
module Api {
  import opened Results
  import Bitwise
  import Text

  /** The values a query-parameter dictionary holds. */
  datatype Value =
    | Str(s: string)
    | Int(n: int)
    | Bytes(b: seq<Text.byte>)
    | List(items: seq<Value>)

  /** The Python exceptions the core can raise. */
  datatype Error = KeyError | TypeError | UnicodeEncodeError

  /** The field groups of one default configuration, in dictionary order, and its optional sort. */
  datatype Preset = Preset(fields: seq<(string, seq<string>)>, sort: Option<Value>)

  /** The field registry (name to flag) and the defaults table (endpoint, then scope, to preset). */
  datatype Tables = Tables(flags: map<string, nat>, defaults: map<string, map<Option<Value>, Preset>>)

  /** HMAC-SHA1 over (key, message) and base64 encoding, supplied from outside. */
  datatype Crypto = Crypto(hmacSha1: (seq<Text.byte>, seq<Text.byte>) -> seq<Text.byte>, b64encode: seq<Text.byte> -> seq<Text.byte>)

  /** A dictionary after an operation that mutates it and may raise part-way. */
  datatype Outcome = Outcome(entries: map<string, Value>, raised: Option<Error>)

  datatype Verb = GET | POST

  /** What is handed to the HTTP library. */
  datatype Request = Request(verb: Verb, url: string, query: map<string, Value>, body: Option<seq<string>>)

  const ApiUrl: string := "http://lsapi.seomoz.com/linkscape/"

  /** Seconds a signature stays valid. */
  const ExpiryWindow: nat := 300

  /** A caller-owned parameter dictionary, updated in place. */
  class Params {
    var entries: map<string, Value>

    constructor (m: map<string, Value>)
      ensures entries == m
    {
      entries := m;
    }
  }

  // ---------------------------------------------------------------------------
  // Signing

  /** The string that is signed: the access id, a newline, the expiry in decimal. */
  function ToSign(accessId: string, expires: nat): string {
    accessId + "\n" + Text.Decimal(expires)
  }

  /** The dictionary after `_add_signature` with clock reading `now`. */
  function Signed(accessId: string, secretKey: string, now: nat, crypto: Crypto, m: map<string, Value>): (o: Outcome)
    ensures "AccessID" in o.entries && o.entries["AccessID"] == Str(accessId)
    ensures "Expires" in o.entries && o.entries["Expires"] == Int(now + ExpiryWindow)
    ensures o.raised.None? <==> Text.IsAscii(secretKey) && Text.IsAscii(accessId)
    ensures o.raised.Some? ==> o.raised == Some(UnicodeEncodeError)
    ensures o.raised.None? ==>
      "Signature" in o.entries &&
      o.entries["Signature"] == Bytes(crypto.b64encode(crypto.hmacSha1(
        Text.AsciiEncode(secretKey).value, Text.AsciiEncode(ToSign(accessId, now + ExpiryWindow)).value)))
    ensures o.raised.Some? ==> ("Signature" in o.entries <==> "Signature" in m)
    ensures o.raised.Some? && "Signature" in m ==> o.entries["Signature"] == m["Signature"]
    ensures forall k :: k != "AccessID" && k != "Expires" && k != "Signature" ==>
      (k in o.entries <==> k in m) && (k in m ==> o.entries[k] == m[k])
  {
    var expires := now + ExpiryWindow;
    var m' := m["AccessID" := Str(accessId)]["Expires" := Int(expires)];
    var toSign := ToSign(accessId, expires);
    assert Text.IsAscii(toSign) <==> Text.IsAscii(accessId) by {
      if Text.IsAscii(accessId) {
        forall i | 0 <= i < |toSign| ensures toSign[i] as int < 128 {
          if i > |accessId| {
            assert toSign[i] == Text.Decimal(expires)[i - |accessId| - 1];
          }
        }
      }
      if Text.IsAscii(toSign) {
        forall i | 0 <= i < |accessId| ensures accessId[i] as int < 128 {
          assert accessId[i] == toSign[i];
        }
      }
    }
    match (Text.AsciiEncode(secretKey), Text.AsciiEncode(toSign))
    case (Some(key), Some(msg)) => Outcome(m'["Signature" := Bytes(crypto.b64encode(crypto.hmacSha1(key, msg)))], None)
    case _ => Outcome(m', Some(UnicodeEncodeError))
  }

  /**
   The signed string determines the access id and the expiry, whatever the
   access id: the expiry is all digits, so the last newline ends the access id.
   A signature cannot be replayed for another expiry.
   */
  lemma {:induction false} ToSignInjective(a1: string, e1: nat, a2: string, e2: nat)
    requires ToSign(a1, e1) == ToSign(a2, e2)
    ensures a1 == a2 && e1 == e2
  {
    var s := ToSign(a1, e1);
    assert s == ToSign(a2, e2);
    assert s[|a1|] == '\n';
    assert s[|a2|] == '\n';
    assert |a1| == |a2|;
    assert a1 == s[..|a1|] == a2;
    assert Text.Decimal(e1) == s[|a1| + 1..] == Text.Decimal(e2);
    Text.DecimalInjective(e1, e2);
  }

  lemma DecimalVector()
    ensures Text.Decimal(1300) == "1300"
  {
    assert Text.Decimal(1) == "1";
    assert Text.Decimal(13) == "1" + "3";
    assert Text.Decimal(130) == "13" + "0";
  }

  lemma AsciiVector()
    ensures Text.AsciiEncode("k") == Some([107])
    ensures Text.AsciiEncode("id\n1300") == Some([105, 100, 10, 49, 51, 48, 48])
  {
    var key := Text.AsciiEncode("k").value;
    assert key == [107] by {
      assert |key| == 1 && key[0] as int == 'k' as int;
    }
    var text := "id\n1300";
    assert text == ['i', 'd', '\n', '1', '3', '0', '0'];
    var msg := Text.AsciiEncode(text).value;
    assert msg == [105, 100, 10, 49, 51, 48, 48] by {
      assert |msg| == 7;
      assert msg[0] as int == text[0] as int == 105;
      assert msg[1] as int == text[1] as int == 100;
      assert msg[2] as int == text[2] as int == 10;
      assert msg[3] as int == text[3] as int == 49;
      assert msg[4] as int == text[4] as int == 51;
      assert msg[5] as int == text[5] as int == 48;
      assert msg[6] as int == text[6] as int == 48;
    }
  }

  /** Signing at 1000 with secret "k" and access id "id": expiry 1300, message "id\n1300". */
  lemma SigningVector(crypto: Crypto, m: map<string, Value>)
    ensures var o := Signed("id", "k", 1000, crypto, m);
      o.raised.None? &&
      o.entries["Expires"] == Int(1300) &&
      o.entries["Signature"] == Bytes(crypto.b64encode(crypto.hmacSha1([107], [105, 100, 10, 49, 51, 48, 48])))
  {
    DecimalVector();
    assert ToSign("id", 1300) == "id\n1300";
    AsciiVector();
  }

  // ---------------------------------------------------------------------------
  // Filters and URLs

  /** The strings of a list whose items are all strings. */
  function StrItems(items: seq<Value>): (r: Option<seq<string>>)
    ensures r.Some? <==> forall i :: 0 <= i < |items| ==> items[i].Str?
    ensures r.Some? ==> |r.value| == |items| && forall i :: 0 <= i < |items| ==> r.value[i] == items[i].s
    decreases |items|
  {
    if items == [] then Some([])
    else if !items[0].Str? then None
    else match StrItems(items[1..])
      case None => None
      case Some(rest) => Some([items[0].s] + rest)
  }

  /** A list value holding the given strings. */
  function StrList(ss: seq<string>): (v: Value)
    ensures v.List? && |v.items| == |ss| && forall i :: 0 <= i < |ss| ==> v.items[i] == Str(ss[i])
    decreases |ss|
  {
    if ss == [] then List([]) else List([Str(ss[0])] + StrList(ss[1..]).items)
  }

  lemma StrItemsOfStrList(ss: seq<string>)
    ensures StrItems(StrList(ss).items) == Some(ss)
  {
    var r := StrItems(StrList(ss).items);
    assert r.Some?;
    assert r.value == ss;
  }

  /** `'+'.join(v)`: a list of strings, or the characters of a string; anything else fails. */
  function JoinFilters(v: Value): Result<string, Error> {
    match v
    case List(items) =>
      (match StrItems(items)
       case Some(ss) => Ok(Text.PlusJoin(ss))
       case None => Err(TypeError))
    case Str(s) => Ok(Text.PlusJoin(Text.Chars(s)))
    case Bytes(b) => if b == [] then Ok("") else Err(TypeError)
    case Int(_) => Err(TypeError)
  }

  /** A list of `+`-free filter names is joined so that splitting on `+` gives it back. */
  lemma JoinFiltersSplits(ss: seq<string>)
    requires |ss| >= 1 && forall i :: 0 <= i < |ss| ==> '+' !in ss[i]
    ensures JoinFilters(StrList(ss)).Ok?
    ensures Text.SplitPlus(JoinFilters(StrList(ss)).value) == ss
  {
    StrItemsOfStrList(ss);
    Text.SplitPlusJoin(ss);
  }

  /** The dictionary `get` sends: signed first, then `Filters` joined. */
  function GetParams(accessId: string, secretKey: string, now: nat, crypto: Crypto, m: map<string, Value>): Outcome {
    var signed := Signed(accessId, secretKey, now, crypto, m);
    if signed.raised.Some? || "Filters" !in signed.entries then signed
    else match JoinFilters(signed.entries["Filters"])
      case Err(e) => Outcome(signed.entries, Some(e))
      case Ok(joined) => Outcome(signed.entries["Filters" := Str(joined)], None)
  }

  /**
   With ASCII credentials, `get` replaces a list of filter names by the names
   joined with `+` and otherwise differs from the caller's dictionary only in
   the three signing keys.
   */
  lemma GetParamsFilters(accessId: string, secretKey: string, now: nat, crypto: Crypto, m: map<string, Value>, ss: seq<string>)
    requires Text.IsAscii(accessId) && Text.IsAscii(secretKey)
    requires "Filters" in m && m["Filters"] == StrList(ss)
    ensures var o := GetParams(accessId, secretKey, now, crypto, m);
      o.raised.None? &&
      o.entries["Filters"] == Str(Text.PlusJoin(ss)) &&
      forall k :: k != "AccessID" && k != "Expires" && k != "Signature" && k != "Filters" ==>
        (k in o.entries <==> k in m) && (k in m ==> o.entries[k] == m[k])
  {
    StrItemsOfStrList(ss);
  }

  /** Without `Filters`, `get` only adds the three signing keys. */
  lemma GetParamsNoFilters(accessId: string, secretKey: string, now: nat, crypto: Crypto, m: map<string, Value>)
    requires "Filters" !in m
    ensures GetParams(accessId, secretKey, now, crypto, m) == Signed(accessId, secretKey, now, crypto, m)
    ensures "Filters" !in GetParams(accessId, secretKey, now, crypto, m).entries
  {
  }

  /** `['links', 'external']` becomes the single string `links+external`. */
  lemma FiltersVector()
    ensures JoinFilters(List([Str("links"), Str("external")])) == Ok("links+external")
  {
    assert StrList(["links", "external"]) == List([Str("links"), Str("external")]);
    StrItemsOfStrList(["links", "external"]);
    var parts := ["links", "external"];
    assert parts[1..] == ["external"];
    assert Text.PlusJoin(parts) == "links" + "+" + "external" == "links+external";
  }

  /** The call URL: base, endpoint, a slash, then the target. */
  function CallUrl(base: string, endpoint: string, target: string): string {
    base + endpoint + "/" + target
  }

  /** For a slash-free endpoint the URL determines both the endpoint and the target. */
  lemma {:induction false} CallUrlInjective(base: string, e1: string, t1: string, e2: string, t2: string)
    requires '/' !in e1 && '/' !in e2
    requires CallUrl(base, e1, t1) == CallUrl(base, e2, t2)
    ensures e1 == e2 && t1 == t2
  {
    var u := CallUrl(base, e1, t1);
    var n := |base|;
    assert u[n + |e1|] == '/' && u[n + |e2|] == '/';
    assert e1 == u[n..n + |e1|] == e2;
    assert t1 == u[n + |e1| + 1..] == t2;
  }

  // ---------------------------------------------------------------------------
  // Smart fields

  predicate NoColumns(m: map<string, Value>) {
    "Cols" !in m && "SourceCols" !in m && "TargetCols" !in m && "LinkCols" !in m
  }

  /** The scope used as a lookup key: the caller's `Scope`, or None. */
  function ScopeOf(m: map<string, Value>): Option<Value> {
    if "Scope" in m then Some(m["Scope"]) else None
  }

  /** Whether a scope can be a dictionary key: a list cannot (Python's "unhashable type"). */
  predicate Hashable(scope: Option<Value>) {
    !(scope.Some? && scope.value.List?)
  }

  /**
   `DEFAULTS[endpoint][scope]`: KeyError for an unknown endpoint, then
   TypeError for a list-valued scope, then KeyError for an unknown scope.
   */
  function LookupPreset(defaults: map<string, map<Option<Value>, Preset>>, endpoint: string, scope: Option<Value>): (r: Result<Preset, Error>)
    ensures r.Ok? <==> endpoint in defaults && Hashable(scope) && scope in defaults[endpoint]
    ensures r.Ok? ==> r.value == defaults[endpoint][scope]
    ensures r.Err? ==> r.error == (if endpoint in defaults && !Hashable(scope) then TypeError else KeyError)
  {
    if endpoint !in defaults then Err(KeyError)
    else if !Hashable(scope) then Err(TypeError)
    else if scope !in defaults[endpoint] then Err(KeyError)
    else Ok(defaults[endpoint][scope])
  }

  predicate AllKnown(flags: map<string, nat>, names: seq<string>) {
    forall i :: 0 <= i < |names| ==> names[i] in flags
  }

  /** The mask of a field list, OR-ed left to right; a KeyError on an unknown name. */
  function FieldMask(flags: map<string, nat>, names: seq<string>): Result<nat, Error>
    decreases |names|
  {
    if names == [] then Ok(0)
    else match FieldMask(flags, names[..|names| - 1])
      case Err(e) => Err(e)
      case Ok(mask) =>
        match Pyscape.GetBitflag(flags, names[|names| - 1])
        case Err(e) => Err(e)
        case Ok(flag) => Ok(Bitwise.Or(mask, flag))
  }

  lemma {:induction false} FieldMaskKnown(flags: map<string, nat>, names: seq<string>)
    ensures FieldMask(flags, names).Ok? <==> AllKnown(flags, names)
    ensures FieldMask(flags, names).Err? ==> FieldMask(flags, names).error == KeyError
    decreases |names|
  {
    if names != [] {
      var init := names[..|names| - 1];
      FieldMaskKnown(flags, init);
      assert AllKnown(flags, names) <==> AllKnown(flags, init) && names[|names| - 1] in flags by {
        if AllKnown(flags, init) && names[|names| - 1] in flags {
          forall i | 0 <= i < |names| ensures names[i] in flags {
            if i < |names| - 1 { assert names[i] == init[i]; }
          }
        }
        if AllKnown(flags, names) {
          forall i | 0 <= i < |init| ensures init[i] in flags {
            assert init[i] == names[i];
          }
        }
      }
    }
  }

  /** A bit of the mask is set exactly when it is set in the flag of some listed field. */
  lemma {:induction false} FieldMaskBits(flags: map<string, nat>, names: seq<string>, k: nat)
    requires AllKnown(flags, names)
    ensures FieldMask(flags, names).Ok?
    ensures Bitwise.Bit(FieldMask(flags, names).value, k) <==>
      exists i :: 0 <= i < |names| && Bitwise.Bit(flags[names[i]], k)
    decreases |names|
  {
    FieldMaskKnown(flags, names);
    if names == [] {
      Bitwise.BitOfZero(k);
    } else {
      var init := names[..|names| - 1];
      var last := names[|names| - 1];
      assert AllKnown(flags, init) by {
        forall i | 0 <= i < |init| ensures init[i] in flags { assert init[i] == names[i]; }
      }
      FieldMaskBits(flags, init, k);
      Bitwise.OrBit(FieldMask(flags, init).value, flags[last], k);
      if Bitwise.Bit(FieldMask(flags, names).value, k) {
        if Bitwise.Bit(flags[last], k) {
          assert Bitwise.Bit(flags[names[|names| - 1]], k);
        } else {
          var i :| 0 <= i < |init| && Bitwise.Bit(flags[init[i]], k);
          assert names[i] == init[i];
        }
      } else {
        forall i | 0 <= i < |names| ensures !Bitwise.Bit(flags[names[i]], k) {
          if i < |init| { assert names[i] == init[i]; }
        }
      }
    }
  }

  /**
   The mask depends only on which fields are listed: order and repetition do
   not matter, and an empty list gives 0.
   */
  lemma FieldMaskOrderFree(flags: map<string, nat>, xs: seq<string>, ys: seq<string>)
    requires AllKnown(flags, xs)
    requires forall n :: n in xs <==> n in ys
    ensures FieldMask(flags, xs).Ok? && FieldMask(flags, xs) == FieldMask(flags, ys)
    ensures xs == [] ==> FieldMask(flags, xs) == Ok(0)
  {
    assert AllKnown(flags, ys) by {
      forall j | 0 <= j < |ys| ensures ys[j] in flags {
        assert ys[j] in xs;
        var i :| 0 <= i < |xs| && xs[i] == ys[j];
      }
    }
    FieldMaskKnown(flags, xs);
    FieldMaskKnown(flags, ys);
    forall k: nat
      ensures Bitwise.Bit(FieldMask(flags, xs).value, k) == Bitwise.Bit(FieldMask(flags, ys).value, k)
    {
      FieldMaskBits(flags, xs, k);
      FieldMaskBits(flags, ys, k);
      if exists i :: 0 <= i < |xs| && Bitwise.Bit(flags[xs[i]], k) {
        var i :| 0 <= i < |xs| && Bitwise.Bit(flags[xs[i]], k);
        assert xs[i] in ys;
        var j :| 0 <= j < |ys| && ys[j] == xs[i];
      }
      if exists j :: 0 <= j < |ys| && Bitwise.Bit(flags[ys[j]], k) {
        var j :| 0 <= j < |ys| && Bitwise.Bit(flags[ys[j]], k);
        assert ys[j] in xs;
        var i :| 0 <= i < |xs| && xs[i] == ys[j];
      }
    }
    Bitwise.BitsDetermine(FieldMask(flags, xs).value, FieldMask(flags, ys).value);
  }

  /** Writes each group's mask in order, stopping at the first unknown field. */
  function ApplyGroups(flags: map<string, nat>, m: map<string, Value>, groups: seq<(string, seq<string>)>): Outcome
    decreases |groups|
  {
    if groups == [] then Outcome(m, None)
    else match FieldMask(flags, groups[0].1)
      case Err(e) => Outcome(m, Some(e))
      case Ok(mask) => ApplyGroups(flags, m[groups[0].0 := Int(mask)], groups[1..])
  }

  function AddDefaultSort(m: map<string, Value>, sort: Option<Value>): map<string, Value> {
    if sort.Some? && "Sort" !in m then m["Sort" := sort.value] else m
  }

  /** The dictionary after `_add_smart_fields`. */
  function SmartFields(tables: Tables, endpoint: string, m: map<string, Value>): Outcome {
    var scope := ScopeOf(m);
    var afterColumns :=
      if !NoColumns(m) then Outcome(m, None)
      else match LookupPreset(tables.defaults, endpoint, scope)
        case Err(e) => Outcome(m, Some(e))
        case Ok(p) => ApplyGroups(tables.flags, m, p.fields);
    if afterColumns.raised.Some? then afterColumns
    else match LookupPreset(tables.defaults, endpoint, scope)
      case Err(e) => Outcome(afterColumns.entries, Some(e))
      case Ok(p) => Outcome(AddDefaultSort(afterColumns.entries, p.sort), None)
  }

  predicate DistinctNames(groups: seq<(string, seq<string>)>) {
    forall i, j :: 0 <= i < j < |groups| ==> groups[i].0 != groups[j].0
  }

  predicate GroupsKnown(flags: map<string, nat>, groups: seq<(string, seq<string>)>) {
    forall i :: 0 <= i < |groups| ==> AllKnown(flags, groups[i].1)
  }

  function GroupNames(groups: seq<(string, seq<string>)>): set<string> {
    set i | 0 <= i < |groups| :: groups[i].0
  }

  /** With every field known, each group key ends up holding its mask and nothing else changes. */
  lemma {:induction false} ApplyGroupsWrites(flags: map<string, nat>, m: map<string, Value>, groups: seq<(string, seq<string>)>)
    requires DistinctNames(groups) && GroupsKnown(flags, groups)
    ensures var o := ApplyGroups(flags, m, groups);
      o.raised.None? &&
      o.entries.Keys == m.Keys + GroupNames(groups) &&
      (forall k :: k in m && k !in GroupNames(groups) ==> o.entries[k] == m[k]) &&
      (forall i :: 0 <= i < |groups| ==>
        FieldMask(flags, groups[i].1).Ok? && o.entries[groups[i].0] == Int(FieldMask(flags, groups[i].1).value))
    decreases |groups|
  {
    if groups != [] {
      var rest := groups[1..];
      FieldMaskKnown(flags, groups[0].1);
      var m' := m[groups[0].0 := Int(FieldMask(flags, groups[0].1).value)];
      assert DistinctNames(rest) && GroupsKnown(flags, rest) by {
        forall i, j | 0 <= i < j < |rest| ensures rest[i].0 != rest[j].0 {
          assert rest[i] == groups[i + 1] && rest[j] == groups[j + 1];
        }
        forall i | 0 <= i < |rest| ensures AllKnown(flags, rest[i].1) {
          assert rest[i] == groups[i + 1];
        }
      }
      ApplyGroupsWrites(flags, m', rest);
      assert GroupNames(groups) == {groups[0].0} + GroupNames(rest) by {
        forall n | n in GroupNames(groups) ensures n in {groups[0].0} + GroupNames(rest) {
          var i :| 0 <= i < |groups| && groups[i].0 == n;
          if i > 0 { assert rest[i - 1] == groups[i]; }
        }
        forall n | n in GroupNames(rest) ensures n in GroupNames(groups) {
          var i :| 0 <= i < |rest| && rest[i].0 == n;
          assert groups[i + 1] == rest[i];
        }
      }
      assert groups[0].0 !in GroupNames(rest) by {
        forall i | 0 <= i < |rest| ensures rest[i].0 != groups[0].0 {
          assert rest[i] == groups[i + 1];
        }
      }
      var o := ApplyGroups(flags, m, groups);
      forall i | 0 <= i < |groups|
        ensures FieldMask(flags, groups[i].1).Ok? && o.entries[groups[i].0] == Int(FieldMask(flags, groups[i].1).value)
      {
        FieldMaskKnown(flags, groups[i].1);
        if i > 0 { assert rest[i - 1] == groups[i]; }
      }
    }
  }

  /** An unknown field in some group raises KeyError. */
  lemma {:induction false} ApplyGroupsUnknown(flags: map<string, nat>, m: map<string, Value>, groups: seq<(string, seq<string>)>)
    requires !GroupsKnown(flags, groups)
    ensures ApplyGroups(flags, m, groups).raised == Some(KeyError)
    decreases |groups|
  {
    FieldMaskKnown(flags, groups[0].1);
    if FieldMask(flags, groups[0].1).Ok? {
      var rest := groups[1..];
      assert !GroupsKnown(flags, rest) by {
        var i :| 0 <= i < |groups| && !AllKnown(flags, groups[i].1);
        assert i > 0;
        assert rest[i - 1] == groups[i];
      }
      ApplyGroupsUnknown(flags, m[groups[0].0 := Int(FieldMask(flags, groups[0].1).value)], rest);
    }
  }

  /**
   A caller who supplied any column key gets no column key added or changed;
   the default `Sort` is still added where none was given, and an existing one is kept.
   */
  lemma SmartFieldsKeepsColumns(tables: Tables, endpoint: string, m: map<string, Value>)
    requires !NoColumns(m)
    ensures var o := SmartFields(tables, endpoint, m);
      var r := LookupPreset(tables.defaults, endpoint, ScopeOf(m));
      (o.raised.None? <==> r.Ok?) &&
      (o.raised.Some? ==> o.raised == Some(r.error) && o.entries == m) &&
      (r.Ok? && "Sort" !in m && r.value.sort.Some? ==> "Sort" in o.entries && o.entries["Sort"] == r.value.sort.value) &&
      (r.Ok? && "Sort" !in m && r.value.sort.None? ==> "Sort" !in o.entries) &&
      (forall k :: k != "Sort" ==> (k in o.entries <==> k in m) && (k in m ==> o.entries[k] == m[k])) &&
      ("Sort" in m ==> "Sort" in o.entries && o.entries["Sort"] == m["Sort"])
  {
  }

  /**
   A caller who supplied no column key gets every default group set to the OR
   of its fields' flags; every other key except `Sort` is left alone, the
   default `Sort` is added only where none was given, and `Scope` is never added.
   */
  lemma SmartFieldsDefaults(tables: Tables, endpoint: string, m: map<string, Value>)
    requires NoColumns(m)
    requires LookupPreset(tables.defaults, endpoint, ScopeOf(m)).Ok?
    requires var p := LookupPreset(tables.defaults, endpoint, ScopeOf(m)).value;
      DistinctNames(p.fields) && GroupsKnown(tables.flags, p.fields) && "Sort" !in GroupNames(p.fields)
    ensures var p := LookupPreset(tables.defaults, endpoint, ScopeOf(m)).value;
      var o := SmartFields(tables, endpoint, m);
      o.raised.None? &&
      (forall i :: 0 <= i < |p.fields| ==>
        p.fields[i].0 in o.entries && FieldMask(tables.flags, p.fields[i].1).Ok? &&
        o.entries[p.fields[i].0] == Int(FieldMask(tables.flags, p.fields[i].1).value)) &&
      (forall k :: k !in GroupNames(p.fields) && k != "Sort" ==>
        (k in o.entries <==> k in m) && (k in m ==> o.entries[k] == m[k])) &&
      ("Sort" in m ==> "Sort" in o.entries && o.entries["Sort"] == m["Sort"]) &&
      ("Sort" !in m && p.sort.Some? ==> "Sort" in o.entries && o.entries["Sort"] == p.sort.value) &&
      ("Sort" !in m && p.sort.None? ==> "Sort" !in o.entries) &&
      ("Scope" !in m && "Scope" !in GroupNames(p.fields) ==> "Scope" !in o.entries)
  {
    var p := LookupPreset(tables.defaults, endpoint, ScopeOf(m)).value;
    ApplyGroupsWrites(tables.flags, m, p.fields);
    forall i | 0 <= i < |p.fields| ensures p.fields[i].0 in GroupNames(p.fields) { }
  }

  /**
   A failed (endpoint, scope) lookup leaves the dictionary unchanged, whether or
   not columns were supplied: TypeError for a list-valued `Scope` under a known
   endpoint, KeyError otherwise.
   */
  lemma SmartFieldsMissingPreset(tables: Tables, endpoint: string, m: map<string, Value>)
    requires LookupPreset(tables.defaults, endpoint, ScopeOf(m)).Err?
    ensures SmartFields(tables, endpoint, m) ==
      Outcome(m, Some(if endpoint in tables.defaults && "Scope" in m && m["Scope"].List? then TypeError else KeyError))
  {
  }

  /**
   Named instance of SmartFieldsMissingPreset: a list-valued `Scope` cannot be a
   dictionary key, so the lookup raises TypeError, with or without columns, and
   nothing is written.
   */
  lemma SmartFieldsListScope(tables: Tables, endpoint: string, m: map<string, Value>)
    requires endpoint in tables.defaults
    requires "Scope" in m && m["Scope"].List?
    ensures SmartFields(tables, endpoint, m) == Outcome(m, Some(TypeError))
  {
  }

  /** With no column keys supplied, an unknown default field raises KeyError. */
  lemma SmartFieldsUnknownField(tables: Tables, endpoint: string, m: map<string, Value>)
    requires NoColumns(m)
    requires LookupPreset(tables.defaults, endpoint, ScopeOf(m)).Ok?
    requires !GroupsKnown(tables.flags, LookupPreset(tables.defaults, endpoint, ScopeOf(m)).value.fields)
    ensures SmartFields(tables, endpoint, m).raised == Some(KeyError)
  {
    ApplyGroupsUnknown(tables.flags, m, LookupPreset(tables.defaults, endpoint, ScopeOf(m)).value.fields);
  }

  // ---------------------------------------------------------------------------
  // The client object

  class Pyscape {
    const apiUrl: string
    const accessId: string
    const secretKey: string

    constructor (accessId: string, secretKey: string)
      ensures this.apiUrl == ApiUrl
      ensures this.accessId == accessId && this.secretKey == secretKey
    {
      this.apiUrl := ApiUrl;
      this.accessId := accessId;
      this.secretKey := secretKey;
    }

    /** `FIELDS[field]['flag']`, or KeyError. */
    static function GetBitflag(flags: map<string, nat>, field: string): (r: Result<nat, Error>)
      ensures r.Ok? <==> field in flags
      ensures r.Ok? ==> r.value == flags[field]
      ensures r.Err? ==> r.error == KeyError
    {
      if field in flags then Ok(flags[field]) else Err(KeyError)
    }

    /**
     Forces `AccessID`, `Expires` and `Signature` into the caller's dictionary
     and returns that same dictionary.
     */
    method AddSignature(params: Params, now: nat, crypto: Crypto) returns (res: Result<Params, Error>)
      modifies params
      ensures params.entries == Signed(accessId, secretKey, now, crypto, old(params.entries)).entries
      ensures res.Ok? <==> Signed(accessId, secretKey, now, crypto, old(params.entries)).raised.None?
      ensures res.Ok? ==> res.value == params
      ensures res.Err? ==> res.error == UnicodeEncodeError
    {
      var expires := now + ExpiryWindow;
      var toSign := accessId + "\n" + Text.Decimal(expires);
      params.entries := params.entries["AccessID" := Str(accessId)];
      params.entries := params.entries["Expires" := Int(expires)];
      var key := Text.AsciiEncode(secretKey);
      var msg := Text.AsciiEncode(toSign);
      if key.None? || msg.None? {
        return Err(UnicodeEncodeError);
      }
      params.entries := params.entries["Signature" := Bytes(crypto.b64encode(crypto.hmacSha1(key.value, msg.value)))];
      return Ok(params);
    }

    /** Signs, joins `Filters`, and builds the GET call to `endpoint/url`. */
    method Get(endpoint: string, url: string, params: Params, now: nat, crypto: Crypto) returns (res: Result<Request, Error>)
      modifies params
      ensures var o := GetParams(accessId, secretKey, now, crypto, old(params.entries));
        params.entries == o.entries &&
        (res.Ok? <==> o.raised.None?) &&
        (res.Err? ==> res.error == o.raised.value) &&
        (res.Ok? ==> res.value == Request(GET, CallUrl(apiUrl, endpoint, url), o.entries, None))
    {
      var signed := AddSignature(params, now, crypto);
      if signed.Err? {
        return Err(signed.error);
      }
      if "Filters" in params.entries {
        var joined := JoinFilters(params.entries["Filters"]);
        if joined.Err? {
          return Err(joined.error);
        }
        params.entries := params.entries["Filters" := Str(joined.value)];
      }
      var call := apiUrl + endpoint + "/" + url;
      return Ok(Request(GET, call, params.entries, None));
    }

    /** Signs and builds the POST call to `endpoint/` with the URL list as its body. */
    method Post(endpoint: string, urls: seq<string>, params: Params, now: nat, crypto: Crypto) returns (res: Result<Request, Error>)
      modifies params
      ensures var o := Signed(accessId, secretKey, now, crypto, old(params.entries));
        params.entries == o.entries &&
        (res.Ok? <==> o.raised.None?) &&
        (res.Err? ==> res.error == UnicodeEncodeError) &&
        (res.Ok? ==> res.value == Request(POST, CallUrl(apiUrl, endpoint, ""), o.entries, Some(urls)))
    {
      var signed := AddSignature(params, now, crypto);
      if signed.Err? {
        return Err(signed.error);
      }
      var call := apiUrl + endpoint + "/";
      return Ok(Request(POST, call, params.entries, Some(urls)));
    }

    /** Fills in default column masks and a default `Sort` for `endpoint`. */
    method AddSmartFields(endpoint: string, params: Params, tables: Tables) returns (res: Result<Params, Error>)
      modifies params
      ensures params.entries == SmartFields(tables, endpoint, old(params.entries)).entries
      ensures res.Ok? <==> SmartFields(tables, endpoint, old(params.entries)).raised.None?
      ensures res.Ok? ==> res.value == params
      ensures res.Err? ==> Some(res.error) == SmartFields(tables, endpoint, old(params.entries)).raised
      ensures res.Err? ==> res.error == KeyError || res.error == TypeError
    {
      var scope: Option<Value> := if "Scope" in params.entries then Some(params.entries["Scope"]) else None;
      if NoColumns(params.entries) {
        var preset := LookupPreset(tables.defaults, endpoint, scope);
        if preset.Err? {
          return Err(preset.error);
        }
        var fieldGroups := preset.value.fields;
        var i := 0;
        while i < |fieldGroups|
          invariant 0 <= i <= |fieldGroups|
          invariant ApplyGroups(tables.flags, params.entries, fieldGroups[i..]) == ApplyGroups(tables.flags, old(params.entries), fieldGroups)
        {
          var (group, names) := fieldGroups[i];
          var bitField := 0;
          var j := 0;
          while j < |names|
            invariant 0 <= j <= |names|
            invariant FieldMask(tables.flags, names[..j]) == Ok(bitField)
          {
            var flag := GetBitflag(tables.flags, names[j]);
            if flag.Err? {
              assert !AllKnown(tables.flags, names);
              FieldMaskKnown(tables.flags, names);
              return Err(KeyError);
            }
            assert names[..j + 1][..j] == names[..j];
            bitField := Bitwise.Or(bitField, flag.value);
            j := j + 1;
          }
          assert names[..j] == names;
          assert fieldGroups[i..][1..] == fieldGroups[i + 1..];
          params.entries := params.entries[group := Int(bitField)];
          i := i + 1;
        }
      }
      var preset := LookupPreset(tables.defaults, endpoint, scope);
      if preset.Err? {
        return Err(preset.error);
      }
      if preset.value.sort.Some? && "Sort" !in params.entries {
        params.entries := params.entries["Sort" := preset.value.sort.value];
      }
      return Ok(params);
    }
  }
}
