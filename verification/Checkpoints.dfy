/**
 The two checkpoint stores.  The file store keeps one JSON object per run id, keyed by the position
 written as a string; it answers like the in-memory store for every value json brings back unchanged.
 */
module Checkpoints {
  import opened Wrappers
  import opened Numerals
  import opened Values
  import opened Runtime
  import opened Merges
  import opened Plans

  /** json.loads(json.dumps(v)): tuples come back as lists. */
  function Reload(v: Value): Value
    requires Storable(v)
  {
    match v
    case List(items) => List(seq(|items|, i requires 0 <= i < |items| => Reload(items[i])))
    case Tuple(parts) => List(seq(|parts|, i requires 0 <= i < |parts| => Reload(parts[i])))
    case Dict(fields) => Dict(seq(|fields|, i requires 0 <= i < |fields| => Field(fields[i].key, Reload(fields[i].value))))
    case _ => v
  }

  /** No tuple anywhere inside. */
  predicate TupleFree(v: Value) {
    match v
    case List(items) => forall i | 0 <= i < |items| :: TupleFree(items[i])
    case Tuple(_) => false
    case Dict(fields) => forall i | 0 <= i < |fields| :: TupleFree(fields[i].value)
    case _ => true
  }

  /** The file gives back the very value recorded exactly when it holds no tuple. */
  lemma {:induction false} ReloadIsIdentity(v: Value)
    requires Storable(v)
    ensures Reload(v) == v <==> TupleFree(v)
    decreases v
  {
    match v
    case List(items) =>
      forall i | 0 <= i < |items| ensures Reload(items[i]) == items[i] <==> TupleFree(items[i]) { ReloadIsIdentity(items[i]); }
      var back := Reload(v).items;
      if back == items {
        forall i | 0 <= i < |items| ensures TupleFree(items[i]) { assert back[i] == Reload(items[i]); }
      }
    case Dict(fields) =>
      forall i | 0 <= i < |fields| ensures Reload(fields[i].value) == fields[i].value <==> TupleFree(fields[i].value) {
        ReloadIsIdentity(fields[i].value);
      }
      var back := Reload(v).fields;
      if back == fields {
        forall i | 0 <= i < |fields| ensures TupleFree(fields[i].value) { assert back[i].value == Reload(fields[i].value); }
      }
    case _ =>
  }

  /** A tuple does not survive the file. */
  lemma TupleBecomesList()
    ensures Storable(Tuple([Null])) && Reload(Tuple([Null])) == List([Null])
  {
    assert Reload(Tuple([Null])).items == [Null];
  }

  /** What a value is made of: a list's or a tuple's elements, a dict's values. */
  function Parts(v: Value): (parts: seq<Value>) {
    match v
    case List(items) => items
    case Tuple(parts) => parts
    case Dict(fields) => seq(|fields|, i requires 0 <= i < |fields| => fields[i].value)
    case _ => []
  }

  /** The value found inside another by following positions. */
  function PartAt(v: Value, path: seq<nat>): Option<Value>
    decreases |path|
  {
    if path == [] then Some(v)
    else if path[0] < |Parts(v)| then PartAt(Parts(v)[path[0]], path[1..])
    else None
  }

  /** Some object the json module refuses is inside. */
  ghost predicate HoldsOpaque(v: Value) {
    exists path :: PartAt(v, path).Some? && PartAt(v, path).value.Opaque?
  }

  lemma HoldsOpaqueIff(v: Value)
    ensures HoldsOpaque(v) <==> v.Opaque? || exists i | 0 <= i < |Parts(v)| :: HoldsOpaque(Parts(v)[i])
  {
    if v.Opaque? { assert PartAt(v, []) == Some(v); }
    forall i | 0 <= i < |Parts(v)| && HoldsOpaque(Parts(v)[i]) ensures HoldsOpaque(v) {
      var path :| PartAt(Parts(v)[i], path).Some? && PartAt(Parts(v)[i], path).value.Opaque?;
      assert ([i] + path)[1..] == path;
      assert PartAt(v, [i] + path) == PartAt(Parts(v)[i], path);
    }
    if HoldsOpaque(v) && !v.Opaque? {
      var path :| PartAt(v, path).Some? && PartAt(v, path).value.Opaque?;
      var part := Parts(v)[path[0]];
      assert PartAt(v, path) == PartAt(part, path[1..]);
      assert HoldsOpaque(part);
    }
  }

  /** The store accepts a value exactly when json can write every part of it. */
  lemma {:induction false} StorableIff(v: Value)
    ensures Storable(v) <==> !HoldsOpaque(v)
    decreases v
  {
    hide HoldsOpaque;
    HoldsOpaqueIff(v);
    match v
    case List(items) => forall i | 0 <= i < |items| ensures Storable(items[i]) <==> !HoldsOpaque(Parts(v)[i]) { StorableIff(items[i]); }
    case Tuple(parts) => forall i | 0 <= i < |parts| ensures Storable(parts[i]) <==> !HoldsOpaque(Parts(v)[i]) { StorableIff(parts[i]); }
    case Dict(fields) =>
      forall i | 0 <= i < |fields| ensures Storable(fields[i].value) <==> !HoldsOpaque(Parts(v)[i]) { StorableIff(fields[i].value); }
    case _ =>
  }

  /** How a part comes back: a tuple as a list of the same length, a dict with the same keys in order, anything else as it was. */
  predicate ComesBackAs(part: Value, back: Value) {
    match part
    case List(items) => back.List? && |back.items| == |items|
    case Tuple(parts) => back.List? && |back.items| == |parts|
    case Dict(fields) => back.Dict? && |back.fields| == |fields| && forall i | 0 <= i < |fields| :: back.fields[i].key == fields[i].key
    case _ => back == part
  }

  /** What the file gives back, part by part. */
  lemma {:induction false} ReloadParts(v: Value, path: seq<nat>)
    requires Storable(v)
    ensures PartAt(Reload(v), path).Some? <==> PartAt(v, path).Some?
    ensures PartAt(v, path).Some? ==> ComesBackAs(PartAt(v, path).value, PartAt(Reload(v), path).value)
    decreases |path|
  {
    if path != [] {
      match v
      case List(items) => if path[0] < |items| { ReloadParts(items[path[0]], path[1..]); }
      case Tuple(parts) => if path[0] < |parts| { ReloadParts(parts[path[0]], path[1..]); }
      case Dict(fields) => if path[0] < |fields| { ReloadParts(fields[path[0]].value, path[1..]); }
      case _ =>
    }
  }

  // ---------------------------------------------------------------- what a run leaves behind

  /** What the store will give back for an output. */
  function Kept(onDisk: bool, v: Value): Value {
    if onDisk && Storable(v) then Reload(v) else v
  }

  /** A checkpoint after the records in a trace. */
  function Recorded(onDisk: bool, cp: Checkpoint, l: seq<Action>): Checkpoint {
    if l == [] then cp
    else match Last(l)
      case Record(position, tool, output) => Recorded(onDisk, cp, Init(l))[position := Saved(tool, Kept(onDisk, output))]
      case _ => Recorded(onDisk, cp, Init(l))
  }

  lemma RecordedSnoc(onDisk: bool, cp: Checkpoint, l: seq<Action>, a: Action)
    ensures Recorded(onDisk, cp, l + [a]) ==
      if a.Record? then Recorded(onDisk, cp, l)[a.position := Saved(a.tool, Kept(onDisk, a.output))]
      else Recorded(onDisk, cp, l)
  {
    assert Init(l + [a]) == l;
  }

  lemma RecordedStart(onDisk: bool, cp: Checkpoint)
    ensures Recorded(onDisk, cp, []) == cp
  {
  }

  // ---------------------------------------------------------------- the in-memory store

  class MemoryStore {
    var runs: map<string, Checkpoint>

    constructor ()
      ensures runs == map[]
    {
      runs := map[];
    }

    function Load(runId: string): Checkpoint
      reads this
    {
      if runId in runs then runs[runId] else map[]
    }

    method Record(runId: string, index: nat, tool: string, output: Value) returns (ok: bool)
      modifies this
      ensures ok == Storable(output)
      ensures Load(runId) == if ok then old(Load(runId))[index := Saved(tool, output)] else old(Load(runId))
      ensures forall other | other != runId :: Load(other) == old(Load(other))
    {
      if !Storable(output) { return false; }
      if runId !in runs { runs := runs[runId := map[]]; }
      var run: Checkpoint := runs[runId][index := Saved(tool, output)];
      runs := runs[runId := run];
      ok := true;
    }
  }

  // ---------------------------------------------------------------- the file store

  type JsonRun = map<string, Saved>

  /** Keys written by str(position). */
  ghost predicate Keyed(run: JsonRun) {
    forall key | key in run :: AllDigits(key) && Digits(ValueOf(key)) == key
  }

  /** {int(key): record} */
  function Decode(run: JsonRun): Checkpoint
    requires Keyed(run)
  {
    map key | key in run :: ValueOf(key) := run[key]
  }

  /** Position i is in the run under str(i) or not at all. */
  lemma DecodeAt(run: JsonRun, i: nat)
    requires Keyed(run)
    ensures i in Decode(run) <==> Digits(i) in run
    ensures i in Decode(run) ==> Decode(run)[i] == run[Digits(i)]
  {
    ValueOfDigits(i);
    if i in Decode(run) {
      var key :| key in run && ValueOf(key) == i;
    }
  }

  lemma DecodeEntry(run: JsonRun, index: nat, saved: Saved)
    requires Keyed(run)
    ensures Keyed(run[Digits(index) := saved])
    ensures Decode(run[Digits(index) := saved]) == Decode(run)[index := saved]
  {
    hide Decode, Digits, ValueOf;
    ValueOfDigits(index);
    var run' := run[Digits(index) := saved];
    var a, b := Decode(run'), Decode(run)[index := saved];
    forall i: nat ensures (i in a <==> i in b) && (i in a ==> a[i] == b[i]) {
      DecodeAt(run, i);
      DecodeAt(run', i);
      if Digits(i) == Digits(index) { DigitsInjective(i, index); }
    }
  }

  ghost predicate AllKeyed(data: map<string, JsonRun>) {
    forall runId | runId in data :: Keyed(data[runId])
  }

  function LoadFrom(data: map<string, JsonRun>, runId: string): Checkpoint
    requires AllKeyed(data)
  {
    if runId in data then Decode(data[runId]) else map[]
  }

  /** run = data.setdefault(run_id, {}); run[str(index)] = record */
  function Written(data: map<string, JsonRun>, runId: string, index: nat, saved: Saved): map<string, JsonRun> {
    data[runId := (if runId in data then data[runId] else map[])[Digits(index) := saved]]
  }

  lemma WrittenKeyed(data: map<string, JsonRun>, runId: string, index: nat, saved: Saved)
    requires AllKeyed(data)
    ensures AllKeyed(Written(data, runId, index, saved))
  {
    DecodeEntry(if runId in data then data[runId] else map[], index, saved);
  }

  /** One run id gains the entry. */
  lemma WrittenLoads(data: map<string, JsonRun>, runId: string, index: nat, saved: Saved)
    requires AllKeyed(data) && AllKeyed(Written(data, runId, index, saved))
    ensures LoadFrom(Written(data, runId, index, saved), runId) == LoadFrom(data, runId)[index := saved]
  {
    var run: JsonRun := if runId in data then data[runId] else map[];
    assert LoadFrom(data, runId) == Decode(run);
    DecodeEntry(run, index, saved);
  }

  /** No other run id is touched. */
  lemma WrittenElsewhere(data: map<string, JsonRun>, runId: string, index: nat, saved: Saved, other: string)
    requires AllKeyed(data) && AllKeyed(Written(data, runId, index, saved)) && other != runId
    ensures LoadFrom(Written(data, runId, index, saved), other) == LoadFrom(data, other)
  {
  }

  /** The content of the file: None while it does not exist or is empty. */
  class FileStore {
    var content: Option<map<string, JsonRun>>

    constructor ()
      ensures Valid() && content.None?
    {
      content := None;
    }

    ghost predicate Valid()
      reads this
    {
      AllKeyed(ReadAll())
    }

    /** _read_all() */
    function ReadAll(): map<string, JsonRun>
      reads this
    {
      if content.Some? then content.value else map[]
    }

    function Load(runId: string): Checkpoint
      requires Valid()
      reads this
    {
      LoadFrom(ReadAll(), runId)
    }

    /** Reads the whole file, adds the record, writes the whole file back; other run ids are untouched. */
    method Record(runId: string, index: nat, tool: string, output: Value) returns (ok: bool)
      requires Valid()
      modifies this
      ensures Valid() && ok == Storable(output)
      ensures Load(runId) == if ok then old(Load(runId))[index := Saved(tool, Reload(output))] else old(Load(runId))
      ensures forall other | other != runId :: Load(other) == old(Load(other))
    {
      hide Storable, Reload, Written, LoadFrom, Keyed, AllKeyed;
      if !Storable(output) { return false; }
      var data := ReadAll();
      var saved := Saved(tool, Reload(output));
      WrittenKeyed(data, runId, index, saved);
      WrittenLoads(data, runId, index, saved);
      forall other | other != runId { WrittenElsewhere(data, runId, index, saved, other); }
      content := Some(Written(data, runId, index, saved));
      ok := true;
    }
  }
}
