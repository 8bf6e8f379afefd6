/** How task arguments are stored as JSON and read back.

    Every dictionary is wrapped under a tag of its own, and that tag is looked for first, so
    user dictionaries may contain the other tags as keys, or even this one. Dates, times,
    durations and model instances are leaves: their own encodings are parameters here. */
module Arguments {
  import opened Tables

  datatype Scalar = Null | Bool(b: bool) | Int(i: int) | Float(f: real) | Str(s: string)

  datatype Leaf = DateTime | Date | Time | TimeDelta | Model

  datatype Arg =
    | Plain(scalar: Scalar)
    | List(items: seq<Arg>)
    | Tuple(items: seq<Arg>)
    | Dict(entries: seq<(string, Arg)>)     // in insertion order
    | Value(leaf: Leaf, id: int)            // `id` stands for the value
    | Unsupported(typeName: string)

  datatype Json =
    | JPlain(scalar: Scalar)
    | JList(items: seq<Json>)
    | JDict(entries: seq<(string, Json)>)

  datatype Result<+T> = Ok(value: T) | SerializationError | DeserializationError

  /** The leaves' own encodings; decoding can fail. */
  datatype Codec = Codec(encode: (Leaf, int) -> Json, decode: (Leaf, Json) -> Option<int>)

  ghost predicate Faithful(codec: Codec) {
    forall leaf, id :: codec.decode(leaf, codec.encode(leaf, id)) == Some(id)
  }

  const HASH_KEY := "__sq_hash__"
  const MODEL_KEY := "__sq_model__"
  const DATETIME_KEY := "__sq_datetime__"
  const DATE_KEY := "__sq_date__"
  const TIME_KEY := "__sq_time__"
  const TIMEDELTA_KEY := "__sq_timedelta__"

  function Tag(leaf: Leaf): string {
    match leaf
    case DateTime => DATETIME_KEY
    case Date => DATE_KEY
    case Time => TIME_KEY
    case TimeDelta => TIMEDELTA_KEY
    case Model => MODEL_KEY
  }

  // ----- Writing -----

  function SerializeArgument(codec: Codec, a: Arg): Result<Json>
    decreases a, 1
  {
    match a
    case Plain(scalar) => Ok(JPlain(scalar))
    case List(items) =>
      (match SerializeItems(codec, a, items)
       case Ok(written) => Ok(JList(written))
       case _ => SerializationError)
    case Tuple(items) =>
      (match SerializeItems(codec, a, items)
       case Ok(written) => Ok(JList(written))
       case _ => SerializationError)
    case Dict(entries) =>
      (match SerializeEntries(codec, a, entries)
       case Ok(written) => Ok(JDict([(HASH_KEY, JDict(written))]))
       case _ => SerializationError)
    case Value(leaf, id) => Ok(JDict([(Tag(leaf), codec.encode(leaf, id))]))
    case Unsupported(_) => SerializationError
  }

  function SerializeItems(codec: Codec, ghost parent: Arg, items: seq<Arg>): (r: Result<seq<Json>>)
    requires forall i :: 0 <= i < |items| ==> items[i] < parent
    ensures r.Ok? ==> |r.value| == |items|
    decreases parent, 0, |items|
  {
    if items == [] then Ok([])
    else
      match SerializeArgument(codec, items[0])
      case Ok(first) =>
        (match SerializeItems(codec, parent, items[1..])
         case Ok(others) => Ok([first] + others)
         case _ => SerializationError)
      case _ => SerializationError
  }

  function SerializeEntries(
      codec: Codec, ghost parent: Arg, entries: seq<(string, Arg)>): (r: Result<seq<(string, Json)>>)
    requires forall i :: 0 <= i < |entries| ==> entries[i].1 < parent
    decreases parent, 0, |entries|
  {
    if entries == [] then Ok([])
    else
      match SerializeArgument(codec, entries[0].1)
      case Ok(first) =>
        (match SerializeEntries(codec, parent, entries[1..])
         case Ok(others) => Ok([(entries[0].0, first)] + others)
         case _ => SerializationError)
      case _ => SerializationError
  }

  // ----- Reading -----

  function Lookup(entries: seq<(string, Json)>, key: string): (r: Option<Json>)
    ensures r.Some? ==> exists k :: 0 <= k < |entries| && entries[k] == (key, r.value)
    ensures r.None? ==> forall k :: 0 <= k < |entries| ==> entries[k].0 != key
  {
    if entries == [] then None
    else if entries[0].0 == key then Some(entries[0].1)
    else Lookup(entries[1..], key)
  }

  /** The first of the leaves' tags that a dictionary has, in the order they are tried. */
  function LeafOf(entries: seq<(string, Json)>): Option<(Leaf, Json)> {
    if Lookup(entries, DATETIME_KEY).Some? then Some((DateTime, Lookup(entries, DATETIME_KEY).value))
    else if Lookup(entries, DATE_KEY).Some? then Some((Date, Lookup(entries, DATE_KEY).value))
    else if Lookup(entries, TIME_KEY).Some? then Some((Time, Lookup(entries, TIME_KEY).value))
    else if Lookup(entries, TIMEDELTA_KEY).Some? then Some((TimeDelta, Lookup(entries, TIMEDELTA_KEY).value))
    else if Lookup(entries, MODEL_KEY).Some? then Some((Model, Lookup(entries, MODEL_KEY).value))
    else None
  }

  function DeserializeArgument(codec: Codec, j: Json): Result<Arg>
    decreases j, 1
  {
    match j
    case JPlain(scalar) => Ok(Plain(scalar))
    case JList(items) =>
      (match DeserializeItems(codec, j, items)
       case Ok(read) => Ok(List(read))
       case _ => DeserializationError)
    case JDict(entries) =>
      if Lookup(entries, HASH_KEY).Some? then
        var hash := Lookup(entries, HASH_KEY).value;
        if hash.JDict? then
          match DeserializeEntries(codec, hash, hash.entries)
          case Ok(read) => Ok(Dict(read))
          case _ => DeserializationError
        else DeserializationError
      else
        match LeafOf(entries)
        case Some(found) =>
          (match codec.decode(found.0, found.1)
           case Some(id) => Ok(Value(found.0, id))
           case None => DeserializationError)
        case None => DeserializationError
  }

  function DeserializeItems(codec: Codec, ghost parent: Json, items: seq<Json>): (r: Result<seq<Arg>>)
    requires forall i :: 0 <= i < |items| ==> items[i] < parent
    decreases parent, 0, |items|
  {
    if items == [] then Ok([])
    else
      match DeserializeArgument(codec, items[0])
      case Ok(first) =>
        (match DeserializeItems(codec, parent, items[1..])
         case Ok(others) => Ok([first] + others)
         case _ => DeserializationError)
      case _ => DeserializationError
  }

  function DeserializeEntries(
      codec: Codec, ghost parent: Json, entries: seq<(string, Json)>): (r: Result<seq<(string, Arg)>>)
    requires forall i :: 0 <= i < |entries| ==> entries[i].1 < parent
    decreases parent, 0, |entries|
  {
    if entries == [] then Ok([])
    else
      match DeserializeArgument(codec, entries[0].1)
      case Ok(first) =>
        (match DeserializeEntries(codec, parent, entries[1..])
         case Ok(others) => Ok([(entries[0].0, first)] + others)
         case _ => DeserializationError)
      case _ => DeserializationError
  }

  // ----- Round trips -----

  /** What reading gives back: the same, with tuples as lists. */
  function AsRead(a: Arg): Arg {
    match a
    case List(items) => List(seq(|items|, i requires 0 <= i < |items| => AsRead(items[i])))
    case Tuple(items) => List(seq(|items|, i requires 0 <= i < |items| => AsRead(items[i])))
    case Dict(entries) => Dict(seq(|entries|, i requires 0 <= i < |entries| => (entries[i].0, AsRead(entries[i].1))))
    case _ => a
  }

  /** Nothing unsupported is in the tree. */
  predicate Serializable(a: Arg) {
    match a
    case List(items) => forall i :: 0 <= i < |items| ==> Serializable(items[i])
    case Tuple(items) => forall i :: 0 <= i < |items| ==> Serializable(items[i])
    case Dict(entries) => forall i :: 0 <= i < |entries| ==> Serializable(entries[i].1)
    case Unsupported(_) => false
    case _ => true
  }

  lemma TagsDiffer(leaf: Leaf, other: Leaf)
    ensures Tag(leaf) != HASH_KEY
    ensures leaf != other ==> Tag(leaf) != Tag(other)
  {
    assert HASH_KEY[5] == 'h' && DATE_KEY[5] == 'd' && TIME_KEY[5] == 't';
    assert |HASH_KEY| == |DATE_KEY| == |TIME_KEY| == 11;
    assert |MODEL_KEY| == 12 && |DATETIME_KEY| == 15 && |TIMEDELTA_KEY| == 16;
  }

  /** A leaf's dictionary is read as that leaf. */
  lemma LeafFound(leaf: Leaf, j: Json)
    ensures Lookup([(Tag(leaf), j)], HASH_KEY).None? && LeafOf([(Tag(leaf), j)]) == Some((leaf, j))
  {
    var entries := [(Tag(leaf), j)];
    forall key ensures Lookup(entries, key) == if key == Tag(leaf) then Some(j) else None {
      assert entries[1..] == [];
    }
    TagsDiffer(leaf, DateTime);
    TagsDiffer(leaf, Date);
    TagsDiffer(leaf, Time);
    TagsDiffer(leaf, TimeDelta);
    TagsDiffer(leaf, Model);
  }

  lemma {:induction false} ItemsWritten(codec: Codec, parent: Arg, items: seq<Arg>)
    requires forall i :: 0 <= i < |items| ==> items[i] < parent && SerializeArgument(codec, items[i]).Ok?
    ensures var r := SerializeItems(codec, parent, items);
            r.Ok? && forall i :: 0 <= i < |items| ==> SerializeArgument(codec, items[i]) == Ok(r.value[i])
    decreases |items|
  {
    if items != [] {
      ItemsWritten(codec, parent, items[1..]);
    }
  }

  lemma {:induction false} ItemsRead(codec: Codec, parent: Json, items: seq<Json>, read: seq<Arg>)
    requires |read| == |items|
    requires forall i :: 0 <= i < |items| ==> items[i] < parent && DeserializeArgument(codec, items[i]) == Ok(read[i])
    ensures DeserializeItems(codec, parent, items) == Ok(read)
    decreases |items|
  {
    if items != [] {
      ItemsRead(codec, parent, items[1..], read[1..]);
      assert read == [read[0]] + read[1..];
    }
  }

  lemma {:induction false} EntriesWritten(codec: Codec, parent: Arg, entries: seq<(string, Arg)>)
    requires forall i :: 0 <= i < |entries| ==> entries[i].1 < parent && SerializeArgument(codec, entries[i].1).Ok?
    ensures var r := SerializeEntries(codec, parent, entries);
            r.Ok? && |r.value| == |entries| &&
            forall i :: 0 <= i < |entries| ==>
              r.value[i].0 == entries[i].0 && SerializeArgument(codec, entries[i].1) == Ok(r.value[i].1)
    decreases |entries|
  {
    if entries != [] {
      EntriesWritten(codec, parent, entries[1..]);
    }
  }

  lemma {:induction false} EntriesRead(
      codec: Codec, parent: Json, entries: seq<(string, Json)>, read: seq<(string, Arg)>)
    requires |read| == |entries|
    requires forall i :: 0 <= i < |entries| ==>
               && entries[i].1 < parent && entries[i].0 == read[i].0
               && DeserializeArgument(codec, entries[i].1) == Ok(read[i].1)
    ensures DeserializeEntries(codec, parent, entries) == Ok(read)
    decreases |entries|
  {
    if entries != [] {
      EntriesRead(codec, parent, entries[1..], read[1..]);
      assert read == [read[0]] + read[1..];
    }
  }

  ghost predicate ReadsBack(codec: Codec, a: Arg) {
    var r := SerializeArgument(codec, a);
    r.Ok? && DeserializeArgument(codec, r.value) == Ok(AsRead(a))
  }

  lemma ItemsReadBack(codec: Codec, a: Arg, items: seq<Arg>)
    requires (a == List(items) || a == Tuple(items)) && forall i :: 0 <= i < |items| ==> ReadsBack(codec, items[i])
    ensures ReadsBack(codec, a)
  {
    ItemsWritten(codec, a, items);
    var written := SerializeItems(codec, a, items).value;
    var read := seq(|items|, i requires 0 <= i < |items| => AsRead(items[i]));
    ItemsRead(codec, JList(written), written, read);
  }

  lemma HashFound(j: Json)
    ensures Lookup([(HASH_KEY, j)], HASH_KEY) == Some(j)
  {
  }

  lemma EntriesReadBack(codec: Codec, a: Arg, entries: seq<(string, Arg)>)
    requires a == Dict(entries) && forall i :: 0 <= i < |entries| ==> ReadsBack(codec, entries[i].1)
    ensures ReadsBack(codec, a)
  {
    EntriesWritten(codec, a, entries);
    var written := SerializeEntries(codec, a, entries).value;
    var read := seq(|entries|, i requires 0 <= i < |entries| => (entries[i].0, AsRead(entries[i].1)));
    EntriesRead(codec, JDict(written), written, read);
    HashFound(JDict(written));
  }

  /** Every argument tree that can be stored is read back as it was, with tuples as lists,
      whatever keys its dictionaries have. */
  lemma {:induction false} RoundTrip(codec: Codec, a: Arg)
    requires Faithful(codec) && Serializable(a)
    ensures SerializeArgument(codec, a).Ok?
    ensures DeserializeArgument(codec, SerializeArgument(codec, a).value) == Ok(AsRead(a))
    decreases a
  {
    assert ReadsBack(codec, a) by {
      match a {
        case Plain(_) =>
        case Value(leaf, id) => LeafFound(leaf, codec.encode(leaf, id));
        case Dict(entries) =>
          forall i | 0 <= i < |entries| ensures ReadsBack(codec, entries[i].1) {
            RoundTrip(codec, entries[i].1);
          }
          EntriesReadBack(codec, a, entries);
        case List(items) =>
          forall i | 0 <= i < |items| ensures ReadsBack(codec, items[i]) {
            RoundTrip(codec, items[i]);
          }
          ItemsReadBack(codec, a, items);
        case Tuple(items) =>
          forall i | 0 <= i < |items| ensures ReadsBack(codec, items[i]) {
            RoundTrip(codec, items[i]);
          }
          ItemsReadBack(codec, a, items);
        case _ =>
      }
    }
  }

  // ----- The stored form -----

  /** The JSON of an argument, tag by tag. */
  ghost predicate WrittenAs(codec: Codec, a: Arg, j: Json) {
    match a
    case Plain(scalar) => j == JPlain(scalar)
    case List(items) =>
      j.JList? && |j.items| == |items| && forall i :: 0 <= i < |items| ==> WrittenAs(codec, items[i], j.items[i])
    case Tuple(items) =>
      j.JList? && |j.items| == |items| && forall i :: 0 <= i < |items| ==> WrittenAs(codec, items[i], j.items[i])
    case Dict(entries) =>
      && j.JDict? && |j.entries| == 1 && j.entries[0].0 == "__sq_hash__" && j.entries[0].1.JDict?
      && var hash := j.entries[0].1.entries;
         && |hash| == |entries|
         && forall i :: 0 <= i < |entries| ==>
              hash[i].0 == entries[i].0 && WrittenAs(codec, entries[i].1, hash[i].1)
    case Value(DateTime, id) => j == JDict([("__sq_datetime__", codec.encode(DateTime, id))])
    case Value(Date, id) => j == JDict([("__sq_date__", codec.encode(Date, id))])
    case Value(Time, id) => j == JDict([("__sq_time__", codec.encode(Time, id))])
    case Value(TimeDelta, id) => j == JDict([("__sq_timedelta__", codec.encode(TimeDelta, id))])
    case Value(Model, id) => j == JDict([("__sq_model__", codec.encode(Model, id))])
    case Unsupported(_) => false
  }

  lemma ItemsFormat(codec: Codec, a: Arg, items: seq<Arg>, written: seq<Json>)
    requires |written| == |items| && forall i :: 0 <= i < |items| ==> items[i] < a
    ensures SerializeItems(codec, a, items) == Ok(written)
            <==> forall i :: 0 <= i < |items| ==> SerializeArgument(codec, items[i]) == Ok(written[i])
  {
    if SerializeItems(codec, a, items).Ok? {
      ItemsWereOk(codec, a, items);
    }
    if forall i :: 0 <= i < |items| ==> SerializeArgument(codec, items[i]).Ok? {
      ItemsWritten(codec, a, items);
      var r := SerializeItems(codec, a, items).value;
      if forall i :: 0 <= i < |items| ==> SerializeArgument(codec, items[i]) == Ok(written[i]) {
        assert forall i :: 0 <= i < |items| ==> r[i] == written[i];
        assert r == written;
      }
    }
  }

  lemma EntriesFormat(codec: Codec, a: Arg, entries: seq<(string, Arg)>, written: seq<(string, Json)>)
    requires |written| == |entries| && forall i :: 0 <= i < |entries| ==> entries[i].1 < a
    ensures SerializeEntries(codec, a, entries) == Ok(written)
            <==> forall i :: 0 <= i < |entries| ==>
                   written[i].0 == entries[i].0 && SerializeArgument(codec, entries[i].1) == Ok(written[i].1)
  {
    if SerializeEntries(codec, a, entries).Ok? {
      EntriesWereOk(codec, a, entries);
    }
    if forall i :: 0 <= i < |entries| ==> SerializeArgument(codec, entries[i].1).Ok? {
      EntriesWritten(codec, a, entries);
      var r := SerializeEntries(codec, a, entries).value;
      if forall i :: 0 <= i < |entries| ==>
           written[i].0 == entries[i].0 && SerializeArgument(codec, entries[i].1) == Ok(written[i].1) {
        assert forall i :: 0 <= i < |entries| ==> r[i] == (r[i].0, r[i].1) && r[i] == written[i];
        assert r == written;
      }
    }
  }

  /** What is written is exactly that form. */
  lemma {:induction false} WireFormat(codec: Codec, a: Arg, j: Json)
    ensures SerializeArgument(codec, a) == Ok(j) <==> WrittenAs(codec, a, j)
    decreases a
  {
    match a {
      case List(items) => ListFormat(codec, a, items, j);
      case Tuple(items) => ListFormat(codec, a, items, j);
      case Dict(entries) => DictFormat(codec, a, entries, j);
      case _ =>
    }
  }

  lemma {:induction false} ListFormat(codec: Codec, a: Arg, items: seq<Arg>, j: Json)
    requires a == List(items) || a == Tuple(items)
    ensures SerializeArgument(codec, a) == Ok(j) <==> WrittenAs(codec, a, j)
    decreases a, 0
  {
    if j.JList? && |j.items| == |items| {
      forall i | 0 <= i < |items|
        ensures SerializeArgument(codec, items[i]) == Ok(j.items[i]) <==> WrittenAs(codec, items[i], j.items[i])
      {
        WireFormat(codec, items[i], j.items[i]);
      }
      ItemsFormat(codec, a, items, j.items);
    }
  }

  lemma {:induction false} DictFormat(codec: Codec, a: Arg, entries: seq<(string, Arg)>, j: Json)
    requires a == Dict(entries)
    ensures SerializeArgument(codec, a) == Ok(j) <==> WrittenAs(codec, a, j)
    decreases a, 0
  {
    if SerializeEntries(codec, a, entries).Ok? {
      EntriesWereOk(codec, a, entries);
      EntriesWritten(codec, a, entries);
    }
    if j.JDict? && |j.entries| == 1 && j.entries[0].0 == "__sq_hash__" && j.entries[0].1.JDict?
       && |j.entries[0].1.entries| == |entries| {
      var hash := j.entries[0].1.entries;
      forall i | 0 <= i < |entries|
        ensures SerializeArgument(codec, entries[i].1) == Ok(hash[i].1) <==> WrittenAs(codec, entries[i].1, hash[i].1)
      {
        WireFormat(codec, entries[i].1, hash[i].1);
      }
      EntriesFormat(codec, a, entries, hash);
      assert j.entries == [("__sq_hash__", JDict(hash))];
    }
  }

  ghost predicate Has(entries: seq<(string, Json)>, key: string) {
    exists k :: 0 <= k < |entries| && entries[k].0 == key
  }

  lemma LookupFinds(entries: seq<(string, Json)>, key: string)
    ensures Lookup(entries, key).Some? <==> Has(entries, key)
  {
    if Lookup(entries, key).Some? {
      var k :| 0 <= k < |entries| && entries[k] == (key, Lookup(entries, key).value);
      assert entries[k].0 == key;
    }
  }

  /** The kind of value that a dictionary stands for, by its tags: the first one decides, in
      this order. */
  ghost predicate KindByTag(entries: seq<(string, Json)>, read: Arg) {
    if Has(entries, "__sq_hash__") then read.Dict?
    else if Has(entries, "__sq_datetime__") then read.Value? && read.leaf == DateTime
    else if Has(entries, "__sq_date__") then read.Value? && read.leaf == Date
    else if Has(entries, "__sq_time__") then read.Value? && read.leaf == Time
    else if Has(entries, "__sq_timedelta__") then read.Value? && read.leaf == TimeDelta
    else Has(entries, "__sq_model__") && read.Value? && read.leaf == Model
  }

  /** Whatever else a dictionary has, it is read by the first tag in it, and one without a
      tag is not read. */
  lemma FirstTagDecides(codec: Codec, entries: seq<(string, Json)>)
    requires DeserializeArgument(codec, JDict(entries)).Ok?
    ensures KindByTag(entries, DeserializeArgument(codec, JDict(entries)).value)
  {
    LookupFinds(entries, "__sq_hash__");
    LookupFinds(entries, "__sq_datetime__");
    LookupFinds(entries, "__sq_date__");
    LookupFinds(entries, "__sq_time__");
    LookupFinds(entries, "__sq_timedelta__");
    LookupFinds(entries, "__sq_model__");
  }

  // ----- What cannot be stored -----

  lemma {:induction false} ItemsWereOk(codec: Codec, parent: Arg, items: seq<Arg>)
    requires forall i :: 0 <= i < |items| ==> items[i] < parent
    requires SerializeItems(codec, parent, items).Ok?
    ensures forall i :: 0 <= i < |items| ==> SerializeArgument(codec, items[i]).Ok?
    decreases |items|
  {
    if items != [] {
      ItemsWereOk(codec, parent, items[1..]);
      forall i | 0 <= i < |items| ensures SerializeArgument(codec, items[i]).Ok? {
        if i > 0 {
          assert items[1..][i - 1] == items[i];
        }
      }
    }
  }

  lemma {:induction false} EntriesWereOk(codec: Codec, parent: Arg, entries: seq<(string, Arg)>)
    requires forall i :: 0 <= i < |entries| ==> entries[i].1 < parent
    requires SerializeEntries(codec, parent, entries).Ok?
    ensures forall i :: 0 <= i < |entries| ==> SerializeArgument(codec, entries[i].1).Ok?
    decreases |entries|
  {
    if entries != [] {
      EntriesWereOk(codec, parent, entries[1..]);
      forall i | 0 <= i < |entries| ensures SerializeArgument(codec, entries[i].1).Ok? {
        if i > 0 {
          assert entries[1..][i - 1] == entries[i];
        }
      }
    }
  }

  lemma {:induction false} StoredIsSerializable(codec: Codec, a: Arg)
    requires SerializeArgument(codec, a).Ok?
    ensures Serializable(a)
    decreases a
  {
    match a {
      case List(items) =>
        ItemsWereOk(codec, a, items);
        forall i | 0 <= i < |items| ensures Serializable(items[i]) {
          StoredIsSerializable(codec, items[i]);
        }
      case Tuple(items) =>
        ItemsWereOk(codec, a, items);
        forall i | 0 <= i < |items| ensures Serializable(items[i]) {
          StoredIsSerializable(codec, items[i]);
        }
      case Dict(entries) =>
        EntriesWereOk(codec, a, entries);
        forall i | 0 <= i < |entries| ensures Serializable(entries[i].1) {
          StoredIsSerializable(codec, entries[i].1);
        }
      case _ =>
    }
  }

  lemma {:induction false} SerializableIsStored(codec: Codec, a: Arg)
    requires Serializable(a)
    ensures SerializeArgument(codec, a).Ok?
    decreases a
  {
    match a {
      case List(items) =>
        forall i | 0 <= i < |items| ensures SerializeArgument(codec, items[i]).Ok? {
          SerializableIsStored(codec, items[i]);
        }
        ItemsWritten(codec, a, items);
      case Tuple(items) =>
        forall i | 0 <= i < |items| ensures SerializeArgument(codec, items[i]).Ok? {
          SerializableIsStored(codec, items[i]);
        }
        ItemsWritten(codec, a, items);
      case Dict(entries) =>
        forall i | 0 <= i < |entries| ensures SerializeArgument(codec, entries[i].1).Ok? {
          SerializableIsStored(codec, entries[i].1);
        }
        EntriesWritten(codec, a, entries);
      case _ =>
    }
  }

  /** Storing fails exactly when something unsupported is somewhere in the tree. */
  lemma StoredExactly(codec: Codec, a: Arg)
    ensures SerializeArgument(codec, a).Ok? <==> Serializable(a)
  {
    if Serializable(a) {
      SerializableIsStored(codec, a);
    }
    if SerializeArgument(codec, a).Ok? {
      StoredIsSerializable(codec, a);
    }
  }

  /** Arguments that are stored alike are read alike: nothing but the difference between
      tuples and lists is lost. */
  lemma StoredAlike(codec: Codec, a: Arg, b: Arg)
    requires Faithful(codec) && SerializeArgument(codec, a).Ok?
             && SerializeArgument(codec, a) == SerializeArgument(codec, b)
    ensures AsRead(a) == AsRead(b)
  {
    StoredIsSerializable(codec, a);
    StoredIsSerializable(codec, b);
    RoundTrip(codec, a);
    RoundTrip(codec, b);
  }

  /** Reading twice changes nothing more. */
  lemma {:induction false} ReadTwice(a: Arg)
    ensures AsRead(AsRead(a)) == AsRead(a)
    decreases a
  {
    match a {
      case Dict(entries) =>
        forall i | 0 <= i < |entries| ensures AsRead(AsRead(entries[i].1)) == AsRead(entries[i].1) {
          ReadTwice(entries[i].1);
        }
        assert AsRead(AsRead(a)).entries == AsRead(a).entries;
      case List(items) =>
        forall i | 0 <= i < |items| ensures AsRead(AsRead(items[i])) == AsRead(items[i]) {
          ReadTwice(items[i]);
        }
        assert AsRead(AsRead(a)).items == AsRead(a).items;
      case Tuple(items) =>
        forall i | 0 <= i < |items| ensures AsRead(AsRead(items[i])) == AsRead(items[i]) {
          ReadTwice(items[i]);
        }
        assert AsRead(AsRead(a)).items == AsRead(a).items;
      case _ =>
    }
  }

  // ----- Positional and keyword arguments -----

  datatype Stored = Stored(args: Json, kwargs: Json)

  /** Python's truth value. */
  predicate Truthy(j: Json) {
    match j
    case JPlain(Null) => false
    case JPlain(Bool(b)) => b
    case JPlain(Int(i)) => i != 0
    case JPlain(Float(f)) => f != 0.0
    case JPlain(Str(s)) => s != ""
    case JList(items) => items != []
    case JDict(entries) => entries != []
  }

  /** What `for arg in arguments` gives: a dictionary gives its keys, a string its characters. */
  function Iterated(j: Json): (r: Option<seq<Json>>)
    ensures Truthy(j) && r.Some? ==> r.value != []
  {
    match j
    case JList(items) => Some(items)
    case JDict(entries) => Some(seq(|entries|, i requires 0 <= i < |entries| => JPlain(Str(entries[i].0))))
    case JPlain(Str(s)) => Some(seq(|s|, i requires 0 <= i < |s| => JPlain(Str([s[i]]))))
    case _ => None
  }

  function SerializePair(codec: Codec, args: seq<Arg>, kwargs: seq<(string, Arg)>): Result<Stored> {
    var a := if args != [] then SerializeArgument(codec, List(args)) else Ok(JList([]));
    var k := if kwargs != [] then SerializeArgument(codec, List([Dict(kwargs)])) else Ok(JDict([]));
    if a.Ok? && k.Ok? then Ok(Stored(a.value, k.value)) else SerializationError
  }

  function Deserialize(codec: Codec, j: Json): Result<seq<Arg>> {
    match Iterated(j)
    case None => DeserializationError
    case Some(items) => DeserializeItems(codec, JList(items), items)
  }

  function DeserializePair(codec: Codec, data: Stored): Result<(seq<Arg>, Arg)> {
    var a := if Truthy(data.args) then Deserialize(codec, data.args) else Ok([]);
    var k := if Truthy(data.kwargs) then Deserialize(codec, data.kwargs) else Ok([Dict([])]);
    if a.Ok? && k.Ok? && k.value != [] then Ok((a.value, k.value[0])) else DeserializationError
  }

  lemma ListReadsBack(codec: Codec, items: seq<Arg>)
    requires Faithful(codec) && Serializable(List(items)) && items != []
    ensures var r := SerializeArgument(codec, List(items));
            r.Ok? && Truthy(r.value) && Deserialize(codec, r.value) == Ok(AsRead(List(items)).items)
  {
    RoundTrip(codec, List(items));
  }

  /** Positional and keyword arguments are read back, also when there are none. */
  lemma PairRoundTrip(codec: Codec, args: seq<Arg>, kwargs: seq<(string, Arg)>)
    requires Faithful(codec) && Serializable(List(args)) && Serializable(Dict(kwargs))
    ensures var r := SerializePair(codec, args, kwargs);
            r.Ok? && DeserializePair(codec, r.value) == Ok((AsRead(List(args)).items, AsRead(Dict(kwargs))))
  {
    if args != [] {
      ListReadsBack(codec, args);
    } else {
      assert AsRead(List(args)).items == [];
    }
    if kwargs != [] {
      ListReadsBack(codec, [Dict(kwargs)]);
    } else {
      assert AsRead(Dict(kwargs)).entries == [];
    }
  }
}
