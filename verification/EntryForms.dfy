/**
 Which JSON values are log entries (swiyu-core/src/didlog/mod.rs): the parser accepts exactly the values of
 these forms, and reads off exactly these fields.
 */
module EntryForms {
  import opened Basics
  import opened Json
  import opened LogEntry

  // --- optional typed members ---

  predicate TextMember(obj: map<string, Json>, key: string, v: Option<string>) {
    if key in obj then v.Some? && obj[key] == Str(v.value) else v.None?
  }

  predicate FlagMember(obj: map<string, Json>, key: string, v: Option<bool>) {
    if key in obj then v.Some? && obj[key] == Bool(v.value) else v.None?
  }

  predicate NumberMember(obj: map<string, Json>, key: string, v: Option<u64>) {
    if key in obj then v.Some? && obj[key] == Int(v.value) else v.None?
  }

  predicate TextsMember(obj: map<string, Json>, key: string, v: Option<seq<string>>) {
    if key in obj then v.Some? && obj[key] == Arr(Strings(v.value)) else v.None?
  }

  lemma {:induction false} ElementsAreExact(items: seq<Json>, key: string, values: seq<string>)
    ensures StringElements(items, key) == Ok(values) <==> items == Strings(values)
  {
    if items == Strings(values) {
      StringElementsOf(values, key);
    }
    if StringElements(items, key) == Ok(values) {
      ParsedElements(items, key, values);
    }
  }

  lemma {:induction false} ParsedElements(items: seq<Json>, key: string, values: seq<string>)
    requires StringElements(items, key) == Ok(values)
    ensures items == Strings(values)
  {
    if items == [] {
      assert values == [];
    } else {
      assert values == [items[0].s] + StringElements(items[1..], key).value;
      ParsedElements(items[1..], key, values[1..]);
    }
  }

  lemma TextsAreExact(obj: map<string, Json>, key: string, v: Option<seq<string>>)
    ensures StringArrayField(obj, key) == Ok(v) <==> TextsMember(obj, key, v)
  {
    if key in obj && obj[key].Arr? && v.Some? {
      ElementsAreExact(obj[key].items, key, v.value);
    }
  }

  lemma ScalarsAreExact(obj: map<string, Json>, key: string)
    ensures forall v :: StringField(obj, key) == Ok(v) <==> TextMember(obj, key, v)
    ensures forall v :: BoolField(obj, key) == Ok(v) <==> FlagMember(obj, key, v)
    ensures forall v :: U64Field(obj, key) == Ok(v) <==> NumberMember(obj, key, v)
  {
  }

  // --- parameters and state ---

  /** Absent members are absent fields; `watchers` counts for did:webvh only, and unknown members not at all. */
  predicate ParametersOf(v: Json, p: LogParameters) {
    && v.Obj?
    && TextMember(v.members, "method", p.methodName) && TextMember(v.members, "scid", p.scid)
    && TextsMember(v.members, "updateKeys", p.updateKeys) && FlagMember(v.members, "prerotation", p.prerotation)
    && TextsMember(v.members, "nextKeyHashes", p.nextKeyHashes) && FlagMember(v.members, "portable", p.portable)
    && FlagMember(v.members, "deactivated", p.deactivated) && NumberMember(v.members, "ttl", p.ttl)
    && p.witnessConfig == Lookup(v.members, "witness")
    && (if p.format == WebVh10 then TextsMember(v.members, "watchers", p.watchers) else p.watchers.None?)
  }

  lemma ParametersAreExact(v: Json, format: Format, p: LogParameters)
    ensures ParametersFromJson(v, format) == Ok(p) <==> p.format == format && ParametersOf(v, p)
  {
    if v.Obj? {
      var obj := v.members;
      ScalarsAreExact(obj, "method");
      ScalarsAreExact(obj, "scid");
      ScalarsAreExact(obj, "prerotation");
      ScalarsAreExact(obj, "portable");
      ScalarsAreExact(obj, "deactivated");
      ScalarsAreExact(obj, "ttl");
      TextsAreExact(obj, "updateKeys", p.updateKeys);
      TextsAreExact(obj, "nextKeyHashes", p.nextKeyHashes);
      TextsAreExact(obj, "watchers", p.watchers);
    }
    hide StringField, BoolField, U64Field, StringArrayField, TextMember, FlagMember, NumberMember, TextsMember, Lookup;
  }

  /** A full document wins over a patch. */
  predicate StateOf(v: Json, s: DocState) {
    match s
    case Value(doc) => v.Get("value") == Some(doc)
    case Patch(patch) => v.Get("value").None? && v.Get("patch") == Some(patch)
  }

  lemma StateIsExact(v: Json, s: DocState)
    ensures DocStateFromJson(v) == Ok(s) <==> StateOf(v, s)
  {
  }

  // --- entries ---

  /** An array of exactly five elements, or an object with the five members. */
  ghost predicate EntryOf(v: Json, e: LogEntry, parameters: Json, state: Json) {
    && e.parameters.format == e.format && ParametersOf(parameters, e.parameters) && StateOf(state, e.state)
    && match e.format
       case Tdw03 => v == Arr([Str(e.versionId), Str(e.versionTime), parameters, state, Arr(e.proofs)])
       case WebVh10 =>
         && v.Get("versionId") == Some(Str(e.versionId)) && v.Get("versionTime") == Some(Str(e.versionTime))
         && v.Get("parameters") == Some(parameters) && v.Get("state") == Some(state)
         && v.Get("proof") == Some(Arr(e.proofs))
  }

  lemma ArrayIsExact(items: seq<Json>, e: LogEntry)
    ensures EntryFromArray(items) == Ok(e) <==>
            e.format == Tdw03 && exists parameters, state :: EntryOf(Arr(items), e, parameters, state)
  {
    hide ParametersFromJson, DocStateFromJson, ParametersOf, StateOf;
    if |items| == 5 {
      ParametersAreExact(items[2], Tdw03, e.parameters);
      StateIsExact(items[3], e.state);
      if EntryFromArray(items) == Ok(e) {
        assert items == [Str(e.versionId), Str(e.versionTime), items[2], items[3], Arr(e.proofs)];
        assert EntryOf(Arr(items), e, items[2], items[3]);
      }
    }
  }

  lemma ObjectIsExact(obj: map<string, Json>, e: LogEntry)
    ensures EntryFromObject(obj) == Ok(e) <==>
            e.format == WebVh10 && exists parameters, state :: EntryOf(Obj(obj), e, parameters, state)
  {
    hide ParametersFromJson, DocStateFromJson, ParametersOf, StateOf;
    if "parameters" in obj && "state" in obj {
      ParametersAreExact(obj["parameters"], WebVh10, e.parameters);
      StateIsExact(obj["state"], e.state);
      if EntryFromObject(obj) == Ok(e) {
        assert EntryOf(Obj(obj), e, obj["parameters"], obj["state"]);
      }
    }
  }

  lemma FormatOfValue(v: Json, e: LogEntry, parameters: Json, state: Json)
    requires EntryOf(v, e, parameters, state)
    ensures if e.format == Tdw03 then v.Arr? else v.Obj?
  {
    hide ParametersOf, StateOf;
  }

  /** The parser of log entries accepts exactly these values. */
  lemma EntryIsExact(v: Json, e: LogEntry)
    ensures EntryFromJson(v) == Ok(e) <==> exists parameters, state :: EntryOf(v, e, parameters, state)
  {
    hide EntryFromArray, EntryFromObject, EntryOf;
    forall parameters, state | EntryOf(v, e, parameters, state) ensures if e.format == Tdw03 then v.Arr? else v.Obj? {
      FormatOfValue(v, e, parameters, state);
    }
    match v
    case Arr(items) => ArrayIsExact(items, e);
    case Obj(obj) => ObjectIsExact(obj, e);
    case _ =>
  }
}
