/** `execution_store.py`: the durable record of acknowledged real commands. */
module ExecutionStore {
  import opened Wrappers
  import opened JsonValues
  import opened Payloads
  import Guards

  /** `_read`: the object records of the file. */
  function Records(file: JsonFile): Try<Fields> {
    match file
    case Absent => Ok(map[])
    case Unreadable => ValueError(Malformed)
    case Holding(content) =>
      if !content.Obj? then ValueError(Malformed)
      else if !Guards.Clean(content) then ValueError(SecretField)
      else Ok(map key | key in content.fields && content.fields[key].Obj? :: content.fields[key])
  }

  /** The decision a record holds, if it is complete. */
  function Recorded(item: Json): Option<Decision> {
    if !item.Obj? || !Get(item.fields, "resultPayload").Obj? || !Get(item.fields, "status").Str? then None
    else Some(Decision(item.fields["status"].text, item.fields["resultPayload"].fields))
  }

  /** `get`. */
  function Find(file: JsonFile, id: string): Try<Option<Decision>> {
    var records :- Records(file);
    var found := Recorded(Get(records, id));
    if found.Some? && !Guards.Clean(Obj(found.value.payload)) then
      ValueError(SecretField)
    else Ok(found)
  }

  function Entry(d: Decision, stamp: string): Json {
    Obj(map["resultPayload" := Obj(d.payload), "status" := Str(d.status), "updatedAt" := Str(stamp)])
  }

  /** `put`. */
  function Store(file: JsonFile, id: string, d: Decision, stamp: string): Try<JsonFile> {
    if !Guards.Clean(Obj(d.payload)) then ValueError(SecretField)
    else
      var records :- Records(file);
      Ok(Holding(Obj(records[id := Entry(d, stamp)])))
  }

  class LocalExecutionStore {
    var file: JsonFile

    constructor (stored: JsonFile)
      ensures file == stored
    {
      file := stored;
    }

    method Get(id: string) returns (r: Try<Option<Decision>>)
      ensures r == Find(file, id)
      ensures forall d :: r == Ok(Some(d)) <==> Holds(file, id, d)
      ensures r.ValueError? <==> !CleanFile(file)
    {
      FoundExactly(file, id);
      hide Guards.Clean, Find, Holds, CleanFile;
      var read := Records(file);
      if !read.Ok? {
        RecordsNeverCrash(file);
        RecordsDecide(file, id);
        return ValueError(read.reason);
      }
      var item := JsonValues.Get(read.value, id);
      var found := Recorded(item);
      RecordsDecide(file, id);
      if found.Some? && !Guards.Clean(Obj(found.value.payload)) {
        return ValueError(SecretField);
      }
      r := Ok(found);
    }

    method Put(id: string, d: Decision, stamp: string) returns (r: Try<bool>)
      modifies this
      ensures var put := Store(old(file), id, d, stamp);
              && (put.Ok? <==> r.Ok?) && !r.Crash?
              && file == if put.Ok? then put.value else old(file)
    {
      if !Guards.Clean(Obj(d.payload)) {
        return ValueError(SecretField);
      }
      var read := Records(file);
      if !read.Ok? {
        RecordsNeverCrash(file);
        return ValueError(read.reason);
      }
      file := Holding(Obj(read.value[id := Entry(d, stamp)]));
      r := Ok(true);
    }
  }

  lemma RecordsNeverCrash(file: JsonFile)
    ensures !Records(file).Crash?
  {
  }

  // ----- what is stored is found ----------------------------------------------------------

  lemma EntryKeysHarmless()
    ensures Guards.HarmlessKey("resultPayload") && Guards.HarmlessKey("status") && Guards.HarmlessKey("updatedAt")
  {
  }

  lemma EntryKeys()
    ensures Guards.SafeKey("resultPayload") && Guards.SafeKey("status") && Guards.SafeKey("updatedAt")
  {
    EntryKeysHarmless();
    hide Guards.SafeKey, Guards.HarmlessKey;
    Guards.HarmlessIsSafe("resultPayload");
    Guards.HarmlessIsSafe("status");
    Guards.HarmlessIsSafe("updatedAt");
  }

  lemma EntryClean(d: Decision, stamp: string)
    ensures Guards.Clean(Entry(d, stamp)) <==> Guards.Clean(Obj(d.payload))
    ensures Recorded(Entry(d, stamp)) == Some(d)
  {
    EntryKeys();
    hide Guards.SafeKey;
    var fields := Entry(d, stamp).fields;
    assert fields["resultPayload"] == Obj(d.payload);
    assert fields["status"] == Str(d.status);
    assert fields["updatedAt"] == Str(stamp);
    LeavesAreClean();
  }

  lemma RecordsClean(file: JsonFile)
    requires Records(file).Ok?
    ensures Guards.Clean(Obj(Records(file).value))
    ensures forall key | key in Records(file).value :: Records(file).value[key].Obj?
  {
    hide Guards.SafeKey;
  }

  lemma RecordsOf(fields: Fields)
    ensures Records(Holding(Obj(fields)))
         == if Guards.Clean(Obj(fields)) then Ok(map key | key in fields && fields[key].Obj? :: fields[key])
            else ValueError(SecretField)
  {
    hide Guards.Clean;
  }

  lemma UpdateClean(records: Fields, id: string, entry: Json)
    requires Guards.Clean(Obj(records)) && Guards.Clean(entry)
    ensures Guards.Clean(Obj(records[id := entry])) <==> Guards.SafeKey(id)
  {
    hide Guards.SafeKey;
    assert id in records[id := entry];
  }

  /** A file of clean object records, one more than before, reads back unless the new key looks
      like a secret. */
  lemma RecordsAfter(records: Fields, id: string, entry: Json)
    requires Guards.Clean(Obj(records)) && Guards.Clean(entry) && entry.Obj?
    requires forall key | key in records :: records[key].Obj?
    ensures Records(Holding(Obj(records[id := entry])))
         == if Guards.SafeKey(id) then Ok(records[id := entry])
            else ValueError(SecretField)
  {
    hide Guards.SafeKey, Guards.Clean, Records;
    UpdateClean(records, id, entry);
    var fields := records[id := entry];
    assert (map key | key in fields && fields[key].Obj? :: fields[key]) == fields;
    RecordsOf(fields);
  }

  /** The store after a record is written: every identity finds what it found before, and the new
      one finds the new record -- unless the new identity looks like a secret, and then nothing
      can be read any more. */
  lemma PutThenFind(file: JsonFile, id: string, d: Decision, stamp: string, other: string)
    requires Store(file, id, d, stamp).Ok?
    ensures var after := Store(file, id, d, stamp).value;
            if Guards.SafeKey(id)
            then Find(after, other) == if other == id then Ok(Some(d)) else Find(file, other)
            else Find(after, other).ValueError?
  {
    hide Guards.SafeKey, Guards.Clean;
    RecordsClean(file);
    EntryClean(d, stamp);
    RecordsAfter(Records(file).value, id, Entry(d, stamp));
    hide Records, Entry, Recorded;
  }

  /** The file can be used: it is missing, or an object without secret-like keys. */
  predicate CleanFile(file: JsonFile) {
    file.Absent? || (file.Holding? && file.content.Obj? && Guards.Clean(file.content))
  }

  /** The file has a complete record of this decision under the identity. */
  predicate Holds(file: JsonFile, id: string, d: Decision) {
    && file.Holding? && file.content.Obj? && Guards.Clean(file.content)
    && var entry := Get(file.content.fields, id);
    entry.Obj? && Get(entry.fields, "status") == Str(d.status) && Get(entry.fields, "resultPayload") == Obj(d.payload)
  }

  lemma RecordsDecide(file: JsonFile, id: string)
    ensures Find(file, id)
         == if !Records(file).Ok? then ValueError(Records(file).reason)
            else
              var found := Recorded(Get(Records(file).value, id));
              if found.Some? && !Guards.Clean(Obj(found.value.payload)) then ValueError(SecretField) else Ok(found)
  {
    RecordsNeverCrash(file);
    hide Records, Recorded, Guards.Clean;
  }

  lemma RecordIsClean(records: Fields, id: string)
    requires Guards.Clean(Obj(records))
    ensures var found := Recorded(Get(records, id));
            found.Some? ==> Guards.Clean(Obj(found.value.payload))
  {
    hide Guards.SafeKey;
    if id in records {
      assert Guards.Clean(records[id]);
    }
  }

  /** A lookup finds a decision exactly when the file holds a complete record of it, fails exactly
      when the file is damaged, and otherwise finds nothing. */
  lemma FoundExactly(file: JsonFile, id: string)
    ensures forall d :: Find(file, id) == Ok(Some(d)) <==> Holds(file, id, d)
    ensures Find(file, id).ValueError? <==> !CleanFile(file)
    ensures !Find(file, id).Crash?
  {
    hide Guards.SafeKey, Guards.Clean;
    RecordsNeverCrash(file);
    if Records(file).Ok? {
      RecordsClean(file);
      RecordIsClean(Records(file).value, id);
    }
  }

  /** A command identity that reads like a secret bricks the store: once its result is stored, no
      lookup succeeds any more. */
  lemma TokenBricksTheStore(d: Decision, stamp: string, other: string)
    requires Guards.Clean(Obj(d.payload))
    ensures Store(Absent, "token", d, stamp).Ok?
    ensures Find(Store(Absent, "token", d, stamp).value, other).ValueError?
  {
    TokenIsSecret();
    hide Guards.SafeKey, Guards.Clean;
    PutThenFind(Absent, "token", d, stamp, other);
  }

  lemma TokenIsSecret()
    ensures !Guards.SafeKey("token")
  {
    TokenCons('n', "");
    TokenCons('e', "n");
    TokenCons('k', "en");
    TokenCons('o', "ken");
    TokenCons('t', "oken");
    hide Guards.SecretKeyToken;
    assert ['n'] + "" == "n" && ['e'] + "n" == "en" && ['k'] + "en" == "ken" && ['o'] + "ken" == "oken"
        && ['t'] + "oken" == "token";
    assert Guards.SecretKeyToken("token") == "token";
  }

  lemma TokenCons(c: char, rest: string)
    requires 'a' <= c <= 'z'
    ensures Guards.SecretKeyToken([c] + rest) == [c] + Guards.SecretKeyToken(rest)
    ensures Guards.SecretKeyToken("") == ""
  {
    assert ([c] + rest)[1..] == rest;
  }
}
