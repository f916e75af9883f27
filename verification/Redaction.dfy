/** runtime/events.py and services/recovery.py: the two recursive redactors. */
module Redaction {
  import opened Prelude
  import opened Json

  const MARKERS := ["api_key", "token", "password", "authorization", "secret", "credential"]

  const REDACTED := Str("[redacted]")

  /** A Python value a payload may hold: JSON scalars, lists, dictionaries with any keys, times, and anything else. */
  datatype Py =
    | PyScalar(json: Scalar)
    | PyList(items: seq<Py>)
    | PyDict(entries: seq<Entry>)
    | PyTime(instant: nat)
    | PyOther(thing: nat)

  datatype Scalar = SNull | SBool(b: bool) | SInt(i: int) | SFloat(r: real) | SStr(s: string)

  datatype Key = TextKey(text: string) | OtherKey(thing: nat)

  datatype Entry = Entry(key: Key, value: Py)

  /** How Python turns things into text. */
  datatype Texts = Texts(lower: string -> string, ofKey: nat -> string, ofTime: nat -> string, ofOther: nat -> string)

  function ScalarValue(s: Scalar): Value {
    match s
    case SNull => Null
    case SBool(b) => Bool(b)
    case SInt(i) => Int(i)
    case SFloat(r) => Float(r)
    case SStr(text) => Str(text)
  }

  function KeyText(key: Key, texts: Texts): string {
    match key
    case TextKey(text) => text
    case OtherKey(thing) => texts.ofKey(thing)
  }

  predicate IsSecret(key: string, texts: Texts) {
    exists i :: 0 <= i < |MARKERS| && Contains(texts.lower(key), MARKERS[i])
  }

  /** The lower-case key has one of the six markers somewhere in it. */
  ghost predicate Marked(key: string, texts: Texts) {
    var name := texts.lower(key);
    || Occurs(name, "api_key") || Occurs(name, "token") || Occurs(name, "password")
    || Occurs(name, "authorization") || Occurs(name, "secret") || Occurs(name, "credential")
  }

  /** Which keys are redacted, and with what. */
  lemma SecretExactly(key: string, texts: Texts)
    ensures IsSecret(key, texts) <==> Marked(key, texts)
    ensures REDACTED == Str("[redacted]")
  {
    hide Contains, Occurs;
    var name := texts.lower(key);
    forall i | 0 <= i < |MARKERS|
      ensures Contains(name, MARKERS[i]) <==> Occurs(name, MARKERS[i])
    {
      ContainsExactly(name, MARKERS[i]);
    }
    assert MARKERS[0] == "api_key" && MARKERS[1] == "token" && MARKERS[2] == "password";
    assert MARKERS[3] == "authorization" && MARKERS[4] == "secret" && MARKERS[5] == "credential";
  }

  // ---------------------------------------------------------------- the redactor of events

  /** `_sanitize`. */
  function EventValue(p: Py, texts: Texts): Value
    decreases p
  {
    match p
    case PyScalar(json) => ScalarValue(json)
    case PyList(items) => List(EventItems(items, texts))
    case PyDict(entries) => Obj(EventObject(entries, texts))
    case PyTime(instant) => Str(texts.ofTime(instant))
    case PyOther(thing) => Str(texts.ofOther(thing))
  }

  function EventItems(items: seq<Py>, texts: Texts): (values: seq<Value>)
    decreases items
  {
    if items == [] then []
    else EventItems(items[..|items| - 1], texts) + [EventValue(items[|items| - 1], texts)]
  }

  /** `_sanitize_item`. */
  function EventItem(entry: Entry, texts: Texts): Value
    decreases entry
  {
    if IsSecret(KeyText(entry.key, texts), texts) then REDACTED else EventValue(entry.value, texts)
  }

  /** `_sanitize_payload`: of keys that read the same, the last one counts. */
  function EventObject(entries: seq<Entry>, texts: Texts): Object
    decreases entries
  {
    if entries == [] then map[]
    else
      var last := entries[|entries| - 1];
      EventObject(entries[..|entries| - 1], texts)[KeyText(last.key, texts) := EventItem(last, texts)]
  }

  // ---------------------------------------------------------------- the redactor of the ledger

  /** `_sanitize_value`. */
  function LedgerValue(p: Py, texts: Texts): Py
    decreases p
  {
    match p
    case PyList(items) => PyList(LedgerItems(items, texts))
    case PyDict(entries) => PyDict(LedgerEntries(entries, texts))
    case _ => p
  }

  function LedgerItems(items: seq<Py>, texts: Texts): seq<Py>
    decreases items
  {
    if items == [] then []
    else LedgerItems(items[..|items| - 1], texts) + [LedgerValue(items[|items| - 1], texts)]
  }

  /** A dictionary entry replaces the value of an equal key where it stands, and otherwise comes last. */
  function Put(entries: seq<Entry>, key: string, value: Py): seq<Entry> {
    if entries == [] then [Entry(TextKey(key), value)]
    else if entries[0].key == TextKey(key) then [Entry(TextKey(key), value)] + entries[1..]
    else [entries[0]] + Put(entries[1..], key, value)
  }

  function LedgerItem(entry: Entry, texts: Texts): Py
    decreases entry
  {
    if IsSecret(KeyText(entry.key, texts), texts) then PyScalar(SStr("[redacted]")) else LedgerValue(entry.value, texts)
  }

  /** `_sanitize`. */
  function LedgerEntries(entries: seq<Entry>, texts: Texts): seq<Entry>
    decreases entries
  {
    if entries == [] then []
    else
      var last := entries[|entries| - 1];
      Put(LedgerEntries(entries[..|entries| - 1], texts), KeyText(last.key, texts), LedgerItem(last, texts))
  }

  // ---------------------------------------------------------------- redaction of JSON

  function Redact(v: Value, texts: Texts): Value
    decreases v
  {
    match v
    case List(items) => List(seq(|items|, i requires 0 <= i < |items| => Redact(items[i], texts)))
    case Obj(fields) =>
      Obj(map k | k in fields :: if IsSecret(k, texts) then REDACTED else Redact(fields[k], texts))
    case _ => v
  }

  /** At every depth a key with a marker carries the redaction mark. */
  ghost predicate Redacted(v: Value, texts: Texts)
    decreases v
  {
    match v
    case List(items) => forall i :: 0 <= i < |items| ==> Redacted(items[i], texts)
    case Obj(fields) =>
      forall k :: k in fields ==> if IsSecret(k, texts) then fields[k] == REDACTED else Redacted(fields[k], texts)
    case _ => true
  }

  /** No key has a marker at any depth. */
  ghost predicate MarkerFree(v: Value, texts: Texts)
    decreases v
  {
    match v
    case List(items) => forall i :: 0 <= i < |items| ==> MarkerFree(items[i], texts)
    case Obj(fields) => forall k :: k in fields ==> !IsSecret(k, texts) && MarkerFree(fields[k], texts)
    case _ => true
  }

  lemma {:induction false} RedactRedacts(v: Value, texts: Texts)
    ensures Redacted(Redact(v, texts), texts)
    decreases v
  {
    hide IsSecret;
    match v
    case List(items) =>
      forall i | 0 <= i < |items|
        ensures Redacted(Redact(items[i], texts), texts)
      {
        RedactRedacts(items[i], texts);
      }
    case Obj(fields) =>
      forall k | k in fields && !IsSecret(k, texts)
        ensures Redacted(Redact(fields[k], texts), texts)
      {
        RedactRedacts(fields[k], texts);
      }
    case _ =>
  }

  /** Redaction changes nothing exactly when everything is redacted already. */
  lemma {:induction false} FixedExactly(v: Value, texts: Texts)
    ensures Redact(v, texts) == v <==> Redacted(v, texts)
    decreases v
  {
    hide IsSecret;
    match v
    case List(items) =>
      forall i | 0 <= i < |items|
        ensures Redact(items[i], texts) == items[i] <==> Redacted(items[i], texts)
      {
        FixedExactly(items[i], texts);
      }
      var redacted := Redact(v, texts).items;
      assert redacted == items <==> forall i :: 0 <= i < |items| ==> redacted[i] == items[i];
    case Obj(fields) =>
      forall k | k in fields
        ensures Redact(fields[k], texts) == fields[k] <==> Redacted(fields[k], texts)
      {
        FixedExactly(fields[k], texts);
      }
      var redacted := Redact(v, texts).fields;
      assert redacted == fields <==> forall k :: k in fields ==> redacted[k] == fields[k];
    case _ =>
  }

  /** Redacting again changes nothing. */
  lemma RedactIsIdempotent(v: Value, texts: Texts)
    ensures Redact(Redact(v, texts), texts) == Redact(v, texts)
  {
    hide Redact, Redacted;
    RedactRedacts(v, texts);
    FixedExactly(Redact(v, texts), texts);
  }

  lemma {:induction false} MarkerFreeIsRedacted(v: Value, texts: Texts)
    requires MarkerFree(v, texts)
    ensures Redacted(v, texts)
    decreases v
  {
    hide IsSecret;
    match v
    case List(items) =>
      forall i | 0 <= i < |items|
        ensures Redacted(items[i], texts)
      {
        MarkerFreeIsRedacted(items[i], texts);
      }
    case Obj(fields) =>
      forall k | k in fields
        ensures Redacted(fields[k], texts)
      {
        MarkerFreeIsRedacted(fields[k], texts);
      }
    case _ =>
  }

  /** JSON without a marked key is left as it is. */
  lemma MarkerFreeIsUnchanged(v: Value, texts: Texts)
    requires MarkerFree(v, texts)
    ensures Redact(v, texts) == v
  {
    hide Redact, Redacted, MarkerFree;
    MarkerFreeIsRedacted(v, texts);
    FixedExactly(v, texts);
  }

  // ---------------------------------------------------------------- what an event carries

  /** Whatever is published, the payload is a JSON tree in which every marked key is redacted at every depth. */
  lemma {:induction false} EventIsRedacted(p: Py, texts: Texts)
    ensures Redacted(EventValue(p, texts), texts)
    decreases p, 1
  {
    hide IsSecret;
    match p
    case PyList(items) => EventItemsRedacted(items, texts);
    case PyDict(entries) => EventObjectRedacted(entries, texts);
    case _ =>
  }

  lemma {:induction false} EventItemsRedacted(items: seq<Py>, texts: Texts)
    ensures forall i :: 0 <= i < |EventItems(items, texts)| ==> Redacted(EventItems(items, texts)[i], texts)
    decreases items, 0
  {
    hide Redacted;
    if items != [] {
      EventItemsRedacted(items[..|items| - 1], texts);
      EventIsRedacted(items[|items| - 1], texts);
    }
  }

  lemma {:induction false} EventObjectRedacted(entries: seq<Entry>, texts: Texts)
    ensures var fields := EventObject(entries, texts);
            forall k :: k in fields ==> if IsSecret(k, texts) then fields[k] == REDACTED else Redacted(fields[k], texts)
    decreases entries, 0
  {
    hide Redacted, IsSecret;
    if entries != [] {
      EventObjectRedacted(entries[..|entries| - 1], texts);
      EventItemRedacted(entries[|entries| - 1], texts);
    }
  }

  lemma {:induction false} EventItemRedacted(entry: Entry, texts: Texts)
    ensures if IsSecret(KeyText(entry.key, texts), texts) then EventItem(entry, texts) == REDACTED
            else Redacted(EventItem(entry, texts), texts)
    decreases entry, 0
  {
    hide Redacted, IsSecret;
    EventIsRedacted(entry.value, texts);
  }

  // ---------------------------------------------------------------- where the two redactors agree

  /** The Python value is this JSON tree: its keys are strings, each once. */
  ghost predicate Represents(p: Py, v: Value)
    decreases p
  {
    match p
    case PyScalar(json) => v == ScalarValue(json)
    case PyList(items) => v.List? && RepresentAll(items, v.items)
    case PyDict(entries) => v.Obj? && RepresentFields(entries, v.fields)
    case _ => false
  }

  ghost predicate RepresentAll(items: seq<Py>, values: seq<Value>)
    decreases items
  {
    && |items| == |values|
    && (items != [] ==>
          && Represents(items[|items| - 1], values[|items| - 1])
          && RepresentAll(items[..|items| - 1], values[..|items| - 1]))
  }

  ghost predicate RepresentsField(entry: Entry, v: Value)
    decreases entry
  {
    Represents(entry.value, v)
  }

  ghost predicate RepresentFields(entries: seq<Entry>, fields: Object)
    decreases entries
  {
    if entries == [] then fields == map[]
    else
      var last := entries[|entries| - 1];
      && last.key.TextKey?
      && last.key.text in fields
      && RepresentsField(last, fields[last.key.text])
      && RepresentFields(entries[..|entries| - 1], fields - {last.key.text})
  }

  /** What redaction makes of one field. */
  function RedactField(key: string, v: Value, texts: Texts): Value {
    if IsSecret(key, texts) then REDACTED else Redact(v, texts)
  }

  lemma RedactStep(fields: Object, key: string, texts: Texts)
    requires key in fields
    ensures Redact(Obj(fields), texts).Obj? && Redact(Obj(fields - {key}), texts).Obj?
    ensures Redact(Obj(fields), texts).fields
            == Redact(Obj(fields - {key}), texts).fields[key := RedactField(key, fields[key], texts)]
    ensures Redact(Obj(fields - {key}), texts).fields.Keys == fields.Keys - {key}
  {
    hide IsSecret;
  }

  /** On JSON with string keys the redactor of events is JSON redaction. */
  lemma {:induction false} EventRedactsJson(p: Py, v: Value, texts: Texts)
    requires Represents(p, v)
    ensures EventValue(p, texts) == Redact(v, texts)
    decreases p, 1
  {
    hide IsSecret;
    match p
    case PyList(items) =>
      EventItemsRedactJson(items, v.items, texts);
      assert EventItems(items, texts) == Redact(v, texts).items;
    case PyDict(entries) => EventObjectRedactsJson(entries, v.fields, texts);
    case _ =>
  }

  lemma {:induction false} EventItemsRedactJson(items: seq<Py>, values: seq<Value>, texts: Texts)
    requires RepresentAll(items, values)
    ensures |EventItems(items, texts)| == |values|
    ensures forall i :: 0 <= i < |values| ==> EventItems(items, texts)[i] == Redact(values[i], texts)
    decreases items, 0
  {
    hide Redact, Represents;
    if items != [] {
      EventItemsRedactJson(items[..|items| - 1], values[..|items| - 1], texts);
      EventRedactsJson(items[|items| - 1], values[|items| - 1], texts);
    }
  }

  lemma {:induction false} EventObjectRedactsJson(entries: seq<Entry>, fields: Object, texts: Texts)
    requires RepresentFields(entries, fields)
    ensures Obj(EventObject(entries, texts)) == Redact(Obj(fields), texts)
    decreases entries, 0
  {
    if entries != [] {
      hide Redact, RedactField, RepresentsField, EventItem;
      var last := entries[|entries| - 1];
      EventObjectRedactsJson(entries[..|entries| - 1], fields - {last.key.text}, texts);
      EventItemRedactsJson(last, fields[last.key.text], texts);
      RedactStep(fields, last.key.text, texts);
    }
  }

  lemma {:induction false} EventItemRedactsJson(entry: Entry, v: Value, texts: Texts)
    requires RepresentsField(entry, v)
    ensures EventItem(entry, texts) == RedactField(KeyText(entry.key, texts), v, texts)
    decreases entry, 0
  {
    hide IsSecret, Represents, Redact;
    EventRedactsJson(entry.value, v, texts);
  }

  /** Publishing what was published, or any Python form of it, gives the same payload. */
  lemma EventIsIdempotent(p: Py, again: Py, texts: Texts)
    requires Represents(again, EventValue(p, texts))
    ensures EventValue(again, texts) == EventValue(p, texts)
  {
    hide Redact, Redacted, Represents, EventValue;
    EventRedactsJson(again, EventValue(p, texts), texts);
    EventIsRedacted(p, texts);
    FixedExactly(EventValue(p, texts), texts);
  }

  predicate KeysAre(entries: seq<Entry>, keys: set<string>) {
    forall i :: 0 <= i < |entries| ==> entries[i].key.TextKey? && entries[i].key.text in keys
  }

  lemma {:induction false} KeysOf(entries: seq<Entry>, fields: Object)
    requires RepresentFields(entries, fields)
    ensures KeysAre(entries, fields.Keys)
  {
    hide Represents;
    if entries != [] {
      KeysOf(entries[..|entries| - 1], fields - {entries[|entries| - 1].key.text});
    }
  }

  lemma {:induction false} PutNew(entries: seq<Entry>, key: string, value: Py, keys: set<string>)
    requires KeysAre(entries, keys) && key !in keys
    ensures Put(entries, key, value) == entries + [Entry(TextKey(key), value)]
  {
    if entries != [] {
      assert entries[0].key.text in keys;
      PutNew(entries[1..], key, value, keys);
      assert entries == [entries[0]] + entries[1..];
    }
  }

  lemma AppendField(entries: seq<Entry>, fields: Object, key: string, value: Py, v: Value)
    requires RepresentFields(entries, fields) && key !in fields && Represents(value, v)
    ensures RepresentFields(entries + [Entry(TextKey(key), value)], fields[key := v])
  {
    hide Represents;
    var longer := entries + [Entry(TextKey(key), value)];
    assert longer[..|longer| - 1] == entries;
    assert fields[key := v] - {key} == fields;
  }

  lemma PutField(entries: seq<Entry>, fields: Object, key: string, value: Py, v: Value)
    requires RepresentFields(entries, fields) && key !in fields && Represents(value, v)
    ensures RepresentFields(Put(entries, key, value), fields[key := v])
  {
    hide RepresentFields, Represents, Put;
    KeysOf(entries, fields);
    PutNew(entries, key, value, fields.Keys);
    AppendField(entries, fields, key, value, v);
  }

  lemma NoFields(texts: Texts)
    ensures Redact(Obj(map[]), texts) == Obj(map[])
  {
  }

  /** On JSON with string keys the redactor of the ledger is JSON redaction too, so the two agree. */
  lemma {:induction false} LedgerRedactsJson(p: Py, v: Value, texts: Texts)
    requires Represents(p, v)
    ensures Represents(LedgerValue(p, texts), Redact(v, texts))
    decreases p, 1
  {
    hide IsSecret;
    match p
    case PyList(items) => LedgerItemsRedactJson(items, v.items, texts);
    case PyDict(entries) => LedgerEntriesRedactJson(entries, v.fields, texts);
    case _ =>
  }

  lemma {:induction false} LedgerItemsRedactJson(items: seq<Py>, values: seq<Value>, texts: Texts)
    requires RepresentAll(items, values)
    ensures RepresentAll(LedgerItems(items, texts), Redact(List(values), texts).items)
    decreases items, 0
  {
    hide Represents;
    if items != [] {
      var front := values[..|values| - 1];
      LedgerItemsRedactJson(items[..|items| - 1], front, texts);
      LedgerRedactsJson(items[|items| - 1], values[|values| - 1], texts);
      var redacted := Redact(List(values), texts).items;
      assert redacted[..|redacted| - 1] == Redact(List(front), texts).items;
      var shorter := LedgerItems(items[..|items| - 1], texts);
      assert LedgerItems(items, texts)[..|shorter|] == shorter;
    }
  }

  lemma {:induction false} LedgerEntriesRedactJson(entries: seq<Entry>, fields: Object, texts: Texts)
    requires RepresentFields(entries, fields)
    ensures Redact(Obj(fields), texts).Obj?
    ensures RepresentFields(LedgerEntries(entries, texts), Redact(Obj(fields), texts).fields)
    decreases entries, 0
  {
    if entries == [] {
      NoFields(texts);
    } else {
      hide Redact, RedactField, RepresentsField, LedgerItem, Represents;
      var last := entries[|entries| - 1];
      var key := last.key.text;
      RedactStep(fields, key, texts);
      LedgerEntriesRedactJson(entries[..|entries| - 1], fields - {key}, texts);
      LedgerItemRedactsJson(last, fields[key], texts);
      PutField(LedgerEntries(entries[..|entries| - 1], texts), Redact(Obj(fields - {key}), texts).fields, key,
               LedgerItem(last, texts), RedactField(key, fields[key], texts));
    }
  }

  lemma {:induction false} LedgerItemRedactsJson(entry: Entry, v: Value, texts: Texts)
    requires RepresentsField(entry, v)
    ensures Represents(LedgerItem(entry, texts), RedactField(KeyText(entry.key, texts), v, texts))
    decreases entry, 0
  {
    hide IsSecret, Redact, LedgerValue;
    LedgerRedactsJson(entry.value, v, texts);
    RedactedScalar();
  }

  lemma RedactedScalar()
    ensures Represents(PyScalar(SStr("[redacted]")), REDACTED)
  {
  }

  /** What both redactors make of the same JSON. */
  lemma RedactorsAgree(p: Py, v: Value, texts: Texts)
    requires Represents(p, v)
    ensures EventValue(p, texts) == Redact(v, texts)
    ensures Represents(LedgerValue(p, texts), EventValue(p, texts))
  {
    hide Represents, EventValue, LedgerValue, Redact;
    EventRedactsJson(p, v, texts);
    LedgerRedactsJson(p, v, texts);
  }

  // ---------------------------------------------------------------- where they differ

  /** No time or foreign object is left by redaction: each is under a marked key or overwritten by a later entry whose
      key reads the same. */
  ghost predicate Plain(p: Py, texts: Texts)
    decreases p
  {
    match p
    case PyScalar(_) => true
    case PyList(items) => PlainItems(items, texts)
    case PyDict(entries) => PlainEntries(entries, {}, texts)
    case PyTime(_) => false
    case PyOther(_) => false
  }

  ghost predicate PlainItems(items: seq<Py>, texts: Texts)
    decreases items
  {
    items == [] || (Plain(items[|items| - 1], texts) && PlainItems(items[..|items| - 1], texts))
  }

  ghost predicate PlainEntry(entry: Entry, texts: Texts)
    decreases entry
  {
    IsSecret(KeyText(entry.key, texts), texts) || Plain(entry.value, texts)
  }

  ghost predicate PlainEntries(entries: seq<Entry>, overwritten: set<string>, texts: Texts)
    decreases entries
  {
    entries == []
    || (var last := entries[|entries| - 1];
        && (KeyText(last.key, texts) in overwritten || PlainEntry(last, texts))
        && PlainEntries(entries[..|entries| - 1], overwritten + {KeyText(last.key, texts)}, texts))
  }

  /** What the ledger's redactor keeps under each key. */
  ghost function LedgerObject(entries: seq<Entry>, texts: Texts): (fields: map<string, Py>)
    ensures fields.Keys == EventObject(entries, texts).Keys
  {
    if entries == [] then map[]
    else
      var last := entries[|entries| - 1];
      LedgerObject(entries[..|entries| - 1], texts)[KeyText(last.key, texts) := LedgerItem(last, texts)]
  }

  /** The entries are the fields, each once. */
  ghost predicate Holds(entries: seq<Entry>, fields: map<string, Py>)
  {
    if entries == [] then fields == map[]
    else
      var last := entries[|entries| - 1];
      && last.key.TextKey?
      && last.key.text in fields
      && fields[last.key.text] == last.value
      && Holds(entries[..|entries| - 1], fields - {last.key.text})
  }

  lemma HoldsKeys(entries: seq<Entry>, fields: map<string, Py>, i: nat)
    requires Holds(entries, fields) && i < |entries|
    ensures entries[i].key.TextKey? && entries[i].key.text in fields && fields[entries[i].key.text] == entries[i].value
  {
    if i < |entries| - 1 {
      HoldsKeys(entries[..|entries| - 1], fields - {entries[|entries| - 1].key.text}, i);
    }
  }

  /** In front of the others, too. */
  lemma {:induction false} HoldsFirst(entries: seq<Entry>, fields: map<string, Py>, key: string, value: Py)
    requires Holds(entries, fields) && key !in fields
    ensures Holds([Entry(TextKey(key), value)] + entries, fields[key := value])
    decreases |entries|
  {
    var longer := [Entry(TextKey(key), value)] + entries;
    if entries == [] {
      assert longer[..0] == [] && fields[key := value] - {key} == map[];
    } else {
      var last := entries[|entries| - 1];
      HoldsFirst(entries[..|entries| - 1], fields - {last.key.text}, key, value);
      assert longer[..|longer| - 1] == [Entry(TextKey(key), value)] + entries[..|entries| - 1];
      assert fields[key := value] - {last.key.text} == (fields - {last.key.text})[key := value];
    }
  }

  lemma {:induction false} HoldsRest(entries: seq<Entry>, fields: map<string, Py>)
    requires Holds(entries, fields) && entries != []
    ensures entries[0].key.TextKey? && entries[0].key.text in fields && fields[entries[0].key.text] == entries[0].value
    ensures Holds(entries[1..], fields - {entries[0].key.text})
    decreases |entries|
  {
    HoldsKeys(entries, fields, 0);
    if |entries| == 1 {
      assert entries[..0] == [] && entries[1..] == [];
    } else {
      var last, first := entries[|entries| - 1], entries[0].key.text;
      var front := entries[..|entries| - 1];
      HoldsRest(front, fields - {last.key.text});
      assert front[1..] == entries[1..][..|entries| - 2];
      assert (fields - {last.key.text}) - {first} == (fields - {first}) - {last.key.text};
      assert first != last.key.text;
    }
  }

  lemma {:induction false} PutHolds(entries: seq<Entry>, fields: map<string, Py>, key: string, value: Py)
    requires Holds(entries, fields)
    ensures Holds(Put(entries, key, value), fields[key := value])
    decreases |entries|
  {
    if entries == [] {
      assert fields[key := value] - {key} == map[];
    } else {
      HoldsRest(entries, fields);
      var first := entries[0].key.text;
      var rest := fields - {first};
      if first == key {
        HoldsFirst(entries[1..], rest, key, value);
        assert rest[key := value] == fields[key := value];
      } else {
        PutHolds(entries[1..], rest, key, value);
        HoldsFirst(Put(entries[1..], key, value), rest[key := value], first, entries[0].value);
        assert rest[key := value][first := entries[0].value] == fields[key := value];
      }
    }
  }

  lemma {:induction false} LedgerHolds(entries: seq<Entry>, texts: Texts)
    ensures Holds(LedgerEntries(entries, texts), LedgerObject(entries, texts))
    decreases |entries|
  {
    hide LedgerItem, KeyText;
    if entries != [] {
      var last := entries[|entries| - 1];
      LedgerHolds(entries[..|entries| - 1], texts);
      PutHolds(LedgerEntries(entries[..|entries| - 1], texts), LedgerObject(entries[..|entries| - 1], texts),
               KeyText(last.key, texts), LedgerItem(last, texts));
    }
  }

  /** Entries represent fields exactly if each does. */
  lemma {:induction false} FieldsExactly(entries: seq<Entry>, fields: map<string, Py>, values: Object)
    requires Holds(entries, fields) && fields.Keys == values.Keys
    ensures RepresentFields(entries, values) <==> forall k :: k in fields ==> Represents(fields[k], values[k])
    decreases |entries|
  {
    hide Represents;
    if entries == [] {
      assert values == map[];
    } else {
      var last := entries[|entries| - 1];
      var key := last.key.text;
      var fewer, rest := fields - {key}, values - {key};
      FieldsExactly(entries[..|entries| - 1], fewer, rest);
      assert forall k :: k in fewer ==> fewer[k] == fields[k] && rest[k] == values[k];
      assert forall k :: k in fields ==> k == key || k in fewer;
      assert RepresentsField(last, values[key]) <==> Represents(fields[key], values[key]);
    }
  }

  /** The two redactors agree on a value exactly if no time or foreign object is left by redaction: those become text in
      an event and stay what they are in the ledger. */
  lemma {:induction false} RedactorsAgreeExactly(p: Py, texts: Texts)
    ensures Represents(LedgerValue(p, texts), EventValue(p, texts)) <==> Plain(p, texts)
    decreases p, 1
  {
    hide IsSecret;
    match p
    case PyList(items) => ItemsAgreeExactly(items, texts);
    case PyDict(entries) =>
      LedgerHolds(entries, texts);
      FieldsExactly(LedgerEntries(entries, texts), LedgerObject(entries, texts), EventObject(entries, texts));
      EntriesAgreeExactly(entries, {}, texts);
    case _ =>
  }

  lemma {:induction false} ItemsAgreeExactly(items: seq<Py>, texts: Texts)
    ensures |LedgerItems(items, texts)| == |EventItems(items, texts)|
    ensures RepresentAll(LedgerItems(items, texts), EventItems(items, texts)) <==> PlainItems(items, texts)
    decreases items, 0
  {
    hide Represents, Plain, LedgerValue, EventValue;
    if items != [] {
      var front := items[..|items| - 1];
      ItemsAgreeExactly(front, texts);
      RedactorsAgreeExactly(items[|items| - 1], texts);
      var ledger, event := LedgerItems(items, texts), EventItems(items, texts);
      assert ledger[..|ledger| - 1] == LedgerItems(front, texts) && event[..|event| - 1] == EventItems(front, texts);
    }
  }

  /** Under every key that is not overwritten later, the event has what the ledger keeps. */
  ghost predicate FieldsAgree(ledger: map<string, Py>, event: Object, overwritten: set<string>)
    requires ledger.Keys == event.Keys
  {
    forall k :: k in ledger && k !in overwritten ==> Represents(ledger[k], event[k])
  }

  lemma FieldsAgreeStep(ledger: map<string, Py>, event: Object, overwritten: set<string>, key: string, p: Py, v: Value)
    requires ledger.Keys == event.Keys
    ensures FieldsAgree(ledger[key := p], event[key := v], overwritten)
            <==> (key in overwritten || Represents(p, v)) && FieldsAgree(ledger, event, overwritten + {key})
  {
    hide Represents;
    var ledger', event' := ledger[key := p], event[key := v];
    assert ledger'[key] == p && event'[key] == v;
    if FieldsAgree(ledger', event', overwritten) {
      forall k | k in ledger && k !in overwritten + {key}
        ensures Represents(ledger[k], event[k])
      {
        assert ledger'[k] == ledger[k] && event'[k] == event[k];
      }
    }
    if (key in overwritten || Represents(p, v)) && FieldsAgree(ledger, event, overwritten + {key}) {
      forall k | k in ledger' && k !in overwritten
        ensures Represents(ledger'[k], event'[k])
      {
        assert k != key ==> k in ledger && ledger'[k] == ledger[k] && event'[k] == event[k];
      }
    }
  }

  lemma {:induction false} EntriesAgreeExactly(entries: seq<Entry>, overwritten: set<string>, texts: Texts)
    ensures FieldsAgree(LedgerObject(entries, texts), EventObject(entries, texts), overwritten)
            <==> PlainEntries(entries, overwritten, texts)
    decreases entries, 0
  {
    hide Represents, FieldsAgree, PlainEntry, LedgerItem, EventItem, KeyText;
    if entries == [] {
      NothingDisagrees(overwritten);
    } else {
      var front, last := entries[..|entries| - 1], entries[|entries| - 1];
      var key := KeyText(last.key, texts);
      EntriesAgreeExactly(front, overwritten + {key}, texts);
      EntryAgreesExactly(last, texts);
      FieldsAgreeStep(LedgerObject(front, texts), EventObject(front, texts), overwritten, key, LedgerItem(last, texts),
                      EventItem(last, texts));
    }
  }

  lemma NothingDisagrees(overwritten: set<string>)
    ensures FieldsAgree(map[], map[], overwritten)
  {
  }

  lemma {:induction false} EntryAgreesExactly(entry: Entry, texts: Texts)
    ensures Represents(LedgerItem(entry, texts), EventItem(entry, texts)) <==> PlainEntry(entry, texts)
    decreases entry, 0
  {
    hide IsSecret, LedgerValue, EventValue, Plain, KeyText;
    RedactorsAgreeExactly(entry.value, texts);
    RedactedScalar();
  }

  /** For example, a time becomes text in an event and stays a time in the ledger. */
  lemma TimesDiffer(instant: nat, texts: Texts)
    ensures EventValue(PyTime(instant), texts) == Str(texts.ofTime(instant))
    ensures LedgerValue(PyTime(instant), texts) == PyTime(instant)
    ensures !Represents(LedgerValue(PyTime(instant), texts), EventValue(PyTime(instant), texts))
  {
    RedactorsAgreeExactly(PyTime(instant), texts);
  }
}
