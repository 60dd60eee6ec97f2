// Applying a proposal's config_diff to the JSON params file of a template.
module ConfigDiff {
  import opened Common
  import MarkdownTruncate

  // ---------------------------------------------------------------------------
  // JSON
  // ---------------------------------------------------------------------------

  datatype Json =
    | JNull
    | JBool(b: bool)
    | JInt(i: int)
    | JFloat(r: real)
    | JString(s: string)
    | JArray(items: seq<Json>)
    | JObject(fields: map<string, Json>)

  // A file by what json.loads makes of its text. Two texts of the same object differ in their
  // layout; layout 0 is the one the worker writes.
  datatype File = Missing | Unreadable | NotUtf8 | Blank | Malformed | NotObject | Object(fields: map<string, Json>, layout: nat)

  // One entry of config_diff, in dictionary order.
  datatype Entry = Entry(key: string, change: Json)

  predicate DistinctKeys(diff: seq<Entry>) {
    forall i, j :: 0 <= i < j < |diff| ==> diff[i].key != diff[j].key
  }

  // ---------------------------------------------------------------------------
  // Declared types
  // ---------------------------------------------------------------------------

  function LStrip(s: string): string {
    if s != "" && MarkdownTruncate.IsSpace(s[0]) then LStrip(s[1..]) else s
  }

  function Lower(s: string): (r: string)
    ensures |r| == |s|
  {
    if s == "" then "" else [if 'A' <= s[0] <= 'Z' then ((s[0] as int) + 32) as char else s[0]] + Lower(s[1..])
  }

  // declared_type.strip().lower()
  function Keyword(declared: string): string { Lower(LStrip(MarkdownTruncate.RStrip(declared))) }

  datatype Kind = Numeric | Integer | Boolean | Unchecked

  function KindOf(keyword: string): Kind {
    if keyword in {"float", "number", "double"} then Numeric
    else if keyword in {"int", "integer"} then Integer
    else if keyword in {"bool", "boolean"} then Boolean
    else Unchecked
  }

  // The simple form is the type string, the rich form an object with a "type".
  function DeclaredKind(declared: Json): Kind {
    match declared
    case JString(s) => KindOf(Keyword(s))
    case JObject(fields) => if "type" in fields && fields["type"].JString? then KindOf(Keyword(fields["type"].s)) else Unchecked
    case _ => Unchecked
  }

  // `_validate_config_value_type`: a bool is neither numeric nor an integer.
  predicate Fits(value: Json, declared: Json) {
    match DeclaredKind(declared)
    case Numeric => value.JInt? || value.JFloat?
    case Integer => value.JInt?
    case Boolean => value.JBool?
    case Unchecked => true
  }

  // ---------------------------------------------------------------------------
  // Applying
  // ---------------------------------------------------------------------------

  // DecodeError is the one no handler expects: it ends the job without a word on the proposal.
  datatype Error = ParamNotInTemplate | ParamsFileNotFound | DecodeError | ToMissing(key: string) | ParamValueInvalid(key: string)

  datatype Outcome = Applied(merged: map<string, Json>) | Refused(error: Error)

  predicate HasTo(change: Json) { change.JObject? && "to" in change.fields }

  predicate Good(e: Entry, declared: map<string, Json>) {
    HasTo(e.change) && e.key in declared && Fits(e.change.fields["to"], declared[e.key])
  }

  predicate AllDeclared(diff: seq<Entry>, declared: map<string, Json>) {
    forall i :: 0 <= i < |diff| ==> diff[i].key in declared
  }

  // json.loads(raw or "{}") as an object.
  function Parsed(f: File): Option<map<string, Json>> {
    match f
    case Blank => Some(map[])
    case Object(fields, _) => Some(fields)
    case _ => None
  }

  // m is `base` overridden exactly at the keys of the diff.
  predicate OverriddenAt(m: map<string, Json>, base: map<string, Json>, diff: seq<Entry>) {
    && (forall i :: 0 <= i < |diff| ==> HasTo(diff[i].change) && diff[i].key in m && m[diff[i].key] == diff[i].change.fields["to"])
    && (forall k :: k in m ==> k in base || exists i :: 0 <= i < |diff| && diff[i].key == k)
    && (forall k :: k in base ==> k in m && (m[k] == base[k] || exists i :: 0 <= i < |diff| && diff[i].key == k))
  }

  // The overriding is unique.
  lemma OverriddenAtUnique(m: map<string, Json>, n: map<string, Json>, base: map<string, Json>, diff: seq<Entry>)
    requires OverriddenAt(m, base, diff) && OverriddenAt(n, base, diff)
    ensures m == n
  {
    forall k | k in m ensures k in n && m[k] == n[k] {
      if i :| 0 <= i < |diff| && diff[i].key == k {
        assert m[diff[i].key] == diff[i].change.fields["to"] == n[diff[i].key];
      }
    }
    forall k | k in n ensures k in m {}
  }

  lemma NoKey(base: map<string, Json>)
    ensures OverriddenAt(base, base, [])
  {
  }

  lemma OneMoreKey(m: map<string, Json>, base: map<string, Json>, diff: seq<Entry>, e: Entry)
    requires OverriddenAt(m, base, diff) && HasTo(e.change) && DistinctKeys(diff + [e])
    ensures OverriddenAt(m[e.key := e.change.fields["to"]], base, diff + [e])
  {
    var n, all := m[e.key := e.change.fields["to"]], diff + [e];
    assert all[|diff|] == e;
    forall i | 0 <= i < |diff| ensures diff[i].key != e.key && all[i] == diff[i] {
      assert all[i].key != all[|diff|].key;
    }
    forall k | k in n ensures k in base || exists i :: 0 <= i < |all| && all[i].key == k {
      if k != e.key && k !in base {
        var i :| 0 <= i < |diff| && diff[i].key == k;
        assert all[i].key == k;
      }
    }
    forall k | k in base ensures k in n && (n[k] == base[k] || exists i :: 0 <= i < |all| && all[i].key == k) {
      if k != e.key && n[k] != base[k] {
        var i :| 0 <= i < |diff| && diff[i].key == k;
        assert all[i].key == k;
      }
    }
  }

  class ParamsFile {
    var content: File

    constructor (content: File)
      ensures this.content == content
    {
      this.content := content;
    }

    // The keys no longer declared on the template.
    method HasDrifted(diff: seq<Entry>, declared: map<string, Json>) returns (drifted: bool)
      ensures drifted <==> !AllDeclared(diff, declared)
    {
      var k := 0;
      while k < |diff| && diff[k].key in declared
        invariant k <= |diff| && forall i :: 0 <= i < k ==> diff[i].key in declared
      {
        k := k + 1;
      }
      drifted := k < |diff|;
    }

    // `_apply_config_diff`. Drift is reported first, then a file that is no JSON object, then
    // the first entry that has no "to" or the wrong type; only without any of them is the file
    // written, and then it is the old object overridden exactly at the keys of the diff.
    method ApplyConfigDiff(diff: seq<Entry>, declared: map<string, Json>) returns (r: Outcome)
      requires DistinctKeys(diff)
      modifies this
      ensures r.Refused? ==> content == old(content)
      ensures r == Refused(ParamNotInTemplate) <==> !AllDeclared(diff, declared)
      ensures r == Refused(ParamsFileNotFound) <==>
                AllDeclared(diff, declared) && Parsed(old(content)).None? && !old(content).NotUtf8?
      ensures r == Refused(DecodeError) <==> AllDeclared(diff, declared) && old(content).NotUtf8?
      ensures r.Applied? <==> Parsed(old(content)).Some? && forall i :: 0 <= i < |diff| ==> Good(diff[i], declared)
      ensures r.Applied? ==> content == Object(r.merged, 0) && OverriddenAt(r.merged, Parsed(old(content)).value, diff)
      ensures r.Refused? && (r.error.ToMissing? || r.error.ParamValueInvalid?) ==>
                exists i :: 0 <= i < |diff| && FirstBad(diff, declared, i) && diff[i].key == r.error.key
                            && (r.error.ToMissing? <==> !HasTo(diff[i].change))
    {
      var drifted := HasDrifted(diff, declared);
      if drifted {
        return Refused(ParamNotInTemplate);
      }
      if content.NotUtf8? {
        return Refused(DecodeError);
      }
      if !content.Blank? && !content.Object? {
        return Refused(ParamsFileNotFound);
      }
      var current := if content.Blank? then map[] else content.fields;
      ghost var base := current;
      NoKey(base);
      hide OverriddenAt, Fits;
      for i := 0 to |diff|
        invariant content == old(content)
        invariant OverriddenAt(current, base, diff[..i])
        invariant forall j :: 0 <= j < i ==> Good(diff[j], declared)
      {
        var change := diff[i].change;
        if !change.JObject? || "to" !in change.fields {
          assert FirstBad(diff, declared, i);
          return Refused(ToMissing(diff[i].key));
        }
        if !Fits(change.fields["to"], declared[diff[i].key]) {
          assert FirstBad(diff, declared, i);
          return Refused(ParamValueInvalid(diff[i].key));
        }
        assert diff[..i + 1] == diff[..i] + [diff[i]];
        OneMoreKey(current, base, diff[..i], diff[i]);
        current := current[diff[i].key := change.fields["to"]];
      }
      assert diff[..|diff|] == diff;
      content := Object(current, 0);
      return Applied(current);
    }
  }

  // Entry i is the first one that must be refused.
  predicate FirstBad(diff: seq<Entry>, declared: map<string, Json>, i: nat) {
    i < |diff| && !Good(diff[i], declared) && forall j :: 0 <= j < i ==> Good(diff[j], declared)
  }

  // Applying the same diff again changes nothing, and what the first application wrote is
  // read back as written.
  lemma ApplyingTwiceIsOnce(m: map<string, Json>, n: map<string, Json>, base: map<string, Json>, diff: seq<Entry>)
    requires OverriddenAt(m, base, diff) && OverriddenAt(n, m, diff)
    ensures n == m && Parsed(Object(m, 0)) == Some(m)
  {
    assert OverriddenAt(m, m, diff);
    OverriddenAtUnique(m, n, m, diff);
  }
}
