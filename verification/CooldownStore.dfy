/** Cooldowns across a restart: exported, stored in the config table, loaded and restored
    in a process whose monotonic clock has another origin. */
module CooldownStore {
  import opened Options
  import opened Cooldown
  import opened Decimal

  // ------------------------------------------------- key text

  /** str.split(separator). */
  function Split(s: string, separator: char): seq<string> {
    if s == [] then [""]
    else
      var rest := Split(s[1..], separator);
      if s[0] == separator then [""] + rest
      else if rest == [] then [[s[0]]]
      else [[s[0]] + rest[0]] + rest[1..]
  }

  function KeyText(key: Key): string {
    "cooldown:" + Print(key.0) + ":" + Print(key.1)
  }

  function ParseKey(text: string): Option<Key> {
    var parts := Split(text, ':');
    if |parts| == 3 && parts[0] == "cooldown" && Parse(parts[1]).Some? && Parse(parts[2]).Some? then
      Some((Parse(parts[1]).value, Parse(parts[2]).value))
    else
      None
  }

  lemma {:induction false} SplitAtSeparator(head: string, tail: string, separator: char)
    requires separator !in head
    ensures Split(head + [separator] + tail, separator) == [head] + Split(tail, separator)
  {
    if head == [] {
      assert ([] + [separator] + tail)[1..] == tail;
    } else {
      SplitAtSeparator(head[1..], tail, separator);
      assert (head + [separator] + tail)[1..] == head[1..] + [separator] + tail;
      assert [head[0]] + head[1..] == head;
      assert ([head[1..]] + Split(tail, separator))[1..] == Split(tail, separator);
    }
  }

  lemma {:induction false} SplitWithout(s: string, separator: char)
    requires separator !in s
    ensures Split(s, separator) == [s]
  {
    if s != [] {
      SplitWithout(s[1..], separator);
      assert [s[0]] + s[1..] == s;
    }
  }

  lemma PrintHasNoColon(n: int)
    ensures ':' !in Print(n)
  {
    var digits := PrintNat(if n < 0 then -n else n);
    assert forall i :: 0 <= i < |digits| ==> IsDigit(digits[i]);
  }

  /** The key text parses back to the same ids, so different models have different rows. */
  lemma KeyRoundTrip(key: Key)
    ensures ParseKey(KeyText(key)) == Some(key)
  {
    var g, m := Print(key.0), Print(key.1);
    PrintHasNoColon(key.0);
    PrintHasNoColon(key.1);
    SplitWithout(m, ':');
    SplitAtSeparator(g, m, ':');
    SplitAtSeparator("cooldown", g + [':'] + m, ':');
    assert KeyText(key) == "cooldown" + [':'] + (g + [':'] + m);
    ParsePrints(key.0);
    ParsePrints(key.1);
  }

  function Join(parts: seq<string>, separator: char): string {
    if parts == [] then ""
    else if |parts| == 1 then parts[0]
    else parts[0] + [separator] + Join(parts[1..], separator)
  }

  lemma {:induction false} SplitJoins(s: string, separator: char)
    ensures Split(s, separator) != [] && Join(Split(s, separator), separator) == s
  {
    if s != [] {
      var rest := Split(s[1..], separator);
      SplitJoins(s[1..], separator);
      if s[0] == separator {
        assert ([""] + rest)[1..] == rest && "" + [separator] + Join(rest, separator) == s;
      } else {
        var parts := [[s[0]] + rest[0]] + rest[1..];
        assert parts[1..] == rest[1..] && parts[0] == [s[0]] + rest[0];
        assert Join(parts, separator) == [s[0]] + Join(rest, separator);
      }
    }
  }

  lemma ThreeParts(text: string)
    requires |Split(text, ':')| == 3
    ensures var parts := Split(text, ':'); text == parts[0] + ":" + parts[1] + ":" + parts[2]
  {
    var parts := Split(text, ':');
    SplitJoins(text, ':');
    assert parts[1..][1..] == [parts[2]];
    assert Join(parts[1..], ':') == parts[1] + [':'] + parts[2];
    assert text == parts[0] + [':'] + (parts[1] + [':'] + parts[2]);
  }

  lemma SplitsInThree(g: string, m: string)
    requires ':' !in g && ':' !in m
    ensures Split("cooldown:" + g + ":" + m, ':') == ["cooldown", g, m]
  {
    SplitWithout(m, ':');
    SplitAtSeparator(g, m, ':');
    SplitAtSeparator("cooldown", g + [':'] + m, ':');
    assert "cooldown:" + g + ":" + m == "cooldown" + [':'] + (g + [':'] + m);
  }

  /** A row's key is read exactly when it is "cooldown", a number and a number between colons. */
  lemma ReadKeyExactly(text: string)
    ensures ParseKey(text).Some? ==>
              exists g: string, m: string :: && text == "cooldown:" + g + ":" + m && Parse(g).Some? && Parse(m).Some?
                                             && ParseKey(text) == Some((Parse(g).value, Parse(m).value))
    ensures forall g: string, m: string ::
              ':' !in g && ':' !in m && text == "cooldown:" + g + ":" + m && Parse(g).Some? && Parse(m).Some? ==>
                ParseKey(text) == Some((Parse(g).value, Parse(m).value))
  {
    var parts := Split(text, ':');
    if ParseKey(text).Some? {
      ThreeParts(text);
      assert text == "cooldown:" + parts[1] + ":" + parts[2];
    }
    forall g: string, m: string | ':' !in g && ':' !in m && text == "cooldown:" + g + ":" + m
      ensures parts == ["cooldown", g, m]
    {
      SplitsInThree(g, m);
    }
  }

  // ------------------------------------------------- the config table

  /** A row's value: a cooldown object, or anything else. */
  datatype Value = Saved(failures: int, until: real) | Other

  type Config = map<string, Value>

  /** Every row that reads as a cooldown key is written the way save_cooldown_state does. */
  ghost predicate Canonical(config: Config) {
    forall text :: text in config && ParseKey(text).Some? ==> text == KeyText(ParseKey(text).value)
  }

  function Save(config: Config, records: seq<Record>): Config
    decreases records
  {
    if records == [] then config
    else Save(config[KeyText(records[0].key) := Saved(records[0].failures, records[0].until)], records[1..])
  }

  /** save_cooldown_state: an upsert per record; no row is ever removed here. */
  method SaveCooldownState(config: Config, records: seq<Record>) returns (config': Config)
    ensures config' == Save(config, records)
  {
    config' := config;
    for i := 0 to |records|
      invariant Save(config, records) == Save(config', records[i..])
    {
      assert records[i..][1..] == records[i + 1..];
      config' := config'[KeyText(records[i].key) := Saved(records[i].failures, records[i].until)];
    }
  }

  /** The record that load_cooldown_states reads for a model, if any. */
  function Row(config: Config, key: Key): Option<Record> {
    var text := KeyText(key);
    if text in config && config[text].Saved? then Some(Record(key, config[text].failures, config[text].until)) else None
  }

  ghost predicate ListsRows(records: seq<Record>, config: Config) {
    && (forall r :: r in records <==> Row(config, r.key) == Some(r))
    && Distinct(records)
  }

  /** The record that load_cooldown_states makes of a row, if any. */
  function ReadRow(config: Config, text: string): seq<Record> {
    if text in config && ParseKey(text).Some? && config[text].Saved? then
      [Record(ParseKey(text).value, config[text].failures, config[text].until)]
    else
      []
  }

  function ReadRows(config: Config, order: seq<string>): seq<Record> {
    if order == [] then [] else ReadRows(config, order[..|order| - 1]) + ReadRow(config, order[|order| - 1])
  }

  /** `order` lists the rows of the table, each once. */
  ghost predicate Enumerates(order: seq<string>, texts: set<string>) {
    && (forall text :: text in order <==> text in texts)
    && forall i, j :: 0 <= i < j < |order| ==> order[i] != order[j]
  }

  /** load_cooldown_states: every row with a cooldown key and value, in some order; rows whose
      keys differ in spelling only are read one by one. */
  method LoadCooldownStates(config: Config) returns (records: seq<Record>, ghost order: seq<string>)
    ensures Enumerates(order, config.Keys) && records == ReadRows(config, order)
  {
    records, order := [], [];
    var texts := config.Keys;
    while texts != {}
      invariant texts <= config.Keys && Enumerates(order, config.Keys - texts)
      invariant records == ReadRows(config, order)
      decreases texts
    {
      var text :| text in texts;
      texts := texts - {text};
      ghost var before := order;
      order := order + [text];
      assert order[..|order| - 1] == before;
      var parsed := ParseKey(text);
      if parsed.Some? && config[text].Saved? {
        records := records + [Record(parsed.value, config[text].failures, config[text].until)];
      }
    }
  }

  lemma {:induction false} ReadRowsHold(config: Config, order: seq<string>, r: Record)
    requires Canonical(config)
    ensures r in ReadRows(config, order) <==> KeyText(r.key) in order && Row(config, r.key) == Some(r)
  {
    if order != [] {
      var most, text := order[..|order| - 1], order[|order| - 1];
      ReadRowsHold(config, most, r);
      assert order == most + [text];
      ReadRowHolds(config, text, r);
    }
  }

  lemma ReadRowHolds(config: Config, text: string, r: Record)
    requires Canonical(config)
    ensures r in ReadRow(config, text) <==> text == KeyText(r.key) && Row(config, r.key) == Some(r)
  {
    KeyRoundTrip(r.key);
  }

  lemma {:induction false} ReadRowsDistinct(config: Config, order: seq<string>)
    requires Canonical(config) && forall i, j :: 0 <= i < j < |order| ==> order[i] != order[j]
    ensures Distinct(ReadRows(config, order))
  {
    if order != [] {
      var most, text := order[..|order| - 1], order[|order| - 1];
      ReadRowsDistinct(config, most);
      forall r | r in ReadRows(config, most) && ReadRow(config, text) != []
        ensures r.key != ReadRow(config, text)[0].key
      {
        ReadRowsHold(config, most, r);
        KeyRoundTrip(r.key);
      }
    }
  }

  /** From a table as save_cooldown_state writes it, each model's record is loaded once. */
  lemma LoadedRows(config: Config, order: seq<string>)
    requires Canonical(config) && Enumerates(order, config.Keys)
    ensures ListsRows(ReadRows(config, order), config)
  {
    ReadRowsDistinct(config, order);
    forall r: Record
      ensures r in ReadRows(config, order) <==> Row(config, r.key) == Some(r)
    {
      ReadRowsHold(config, order, r);
    }
  }

  lemma DistinctTail(records: seq<Record>)
    requires records != [] && Distinct(records)
    ensures Distinct(records[1..])
    ensures forall r :: r in records[1..] ==> r.key != records[0].key
    ensures forall r :: r in records <==> r == records[0] || r in records[1..]
  {
    var tail := records[1..];
    assert forall i :: 0 <= i < |tail| ==> tail[i] == records[i + 1];
  }

  /** A save gives every recorded model its row and leaves the other rows alone. */
  lemma {:induction false} SaveRows(config: Config, records: seq<Record>, key: Key)
    requires Distinct(records)
    ensures forall r :: r in records && r.key == key ==> Row(Save(config, records), key) == Some(r)
    ensures (forall r :: r in records ==> r.key != key) ==> Row(Save(config, records), key) == Row(config, key)
    decreases records
  {
    if records != [] {
      var r := records[0];
      var next := config[KeyText(r.key) := Saved(r.failures, r.until)];
      DistinctTail(records);
      SaveRows(next, records[1..], key);
      KeyRoundTrip(r.key);
      KeyRoundTrip(key);
      assert Row(next, key) == if key == r.key then Some(r) else Row(config, key);
      if key == r.key {
        assert forall x :: x in records[1..] ==> x.key != key;
      }
    }
  }

  lemma {:induction false} SaveKeepsCanonical(config: Config, records: seq<Record>)
    requires Canonical(config)
    ensures Canonical(Save(config, records))
    decreases records
  {
    if records != [] {
      KeyRoundTrip(records[0].key);
      SaveKeepsCanonical(config[KeyText(records[0].key) := Saved(records[0].failures, records[0].until)], records[1..]);
    }
  }

  // ------------------------------------------------- restart

  /** What the two clocks read while a record is restored. */
  datatype Reading = Reading(mono: real, wall: real)

  type Clock = nat -> Reading

  function RestoreAll(s: States, records: seq<Record>, clock: Clock, k: nat): States
    requires k <= |records|
    decreases |records| - k
  {
    if k == |records| then s
    else RestoreAll(Restored(s, records[k], clock(k).mono, clock(k).wall), records, clock, k + 1)
  }

  /** The position of a model's record, or the length of the list. */
  function IndexOf(records: seq<Record>, key: Key): (i: nat)
    ensures i <= |records| && (i < |records| ==> records[i].key == key)
    ensures forall j :: 0 <= j < i ==> records[j].key != key
  {
    if records == [] || records[0].key == key then 0 else 1 + IndexOf(records[1..], key)
  }

  lemma {:induction false} OthersUntouched(s: States, records: seq<Record>, clock: Clock, k: nat, key: Key)
    requires k <= |records| && forall j :: k <= j < |records| ==> records[j].key != key
    ensures var s' := RestoreAll(s, records, clock, k);
            (key in s' <==> key in s) && (key in s ==> s'[key] == s[key])
    decreases |records| - k
  {
    if k < |records| {
      OthersUntouched(Restored(s, records[k], clock(k).mono, clock(k).wall), records, clock, k + 1, key);
    }
  }

  lemma {:induction false} RestoredAt(s: States, records: seq<Record>, clock: Clock, k: nat, i: nat)
    requires k <= i < |records| && Distinct(records) && records[i].key !in s
    ensures var s', r := RestoreAll(s, records, clock, k), records[i];
            && (r.key in s' <==> r.until > clock(i).wall)
            && (r.key in s' ==> s'[r.key] == State(r.failures, clock(i).mono + (r.until - clock(i).wall)))
    decreases i - k
  {
    var next := Restored(s, records[k], clock(k).mono, clock(k).wall);
    if k < i {
      RestoredAt(next, records, clock, k + 1, i);
    } else {
      OthersUntouched(next, records, clock, k + 1, records[i].key);
    }
  }

  /** The row of a model after a save: its active cooldown, or whatever row was left before. */
  function Persisted(s: States, config: Config, key: Key, mono: real, wall: real): Option<Record> {
    if key in s && s[key].until > mono then Some(Exported(s, key, mono, wall)) else Row(config, key)
  }

  predicate Revives(r: Option<Record>, wall: real) {
    r.Some? && r.value.until > wall
  }

  /** The loaded record of a model is its row after the save. */
  lemma LoadedAfterSave(s: States, config: Config, active: seq<Record>, order: seq<string>, mono: real, wall: real,
                        key: Key)
    requires Canonical(config) && ListsActive(active, s, mono, wall) && Enumerates(order, Save(config, active).Keys)
    ensures var records := ReadRows(Save(config, active), order);
            && Distinct(records) && Row(Save(config, active), key) == Persisted(s, config, key, mono, wall)
            && Persisted(s, config, key, mono, wall)
               == if IndexOf(records, key) < |records| then Some(records[IndexOf(records, key)]) else None
  {
    var saved := Save(config, active);
    SaveKeepsCanonical(config, active);
    LoadedRows(saved, order);
    SaveRows(config, active, key);
    if key in s && s[key].until > mono {
      assert Exported(s, key, mono, wall) in active;
    }
    var records, row := ReadRows(saved, order), Row(saved, key);
    assert row == Persisted(s, config, key, mono, wall);
    if row.Some? {
      assert row.value in records;
    }
    var i := IndexOf(records, key);
    assert i < |records| ==> records[i] in records;
  }

  /** The new process's states after loading and restoring what the old one saved. */
  function AfterRestart(config: Config, active: seq<Record>, order: seq<string>, clock: Clock): States {
    RestoreAll(map[], ReadRows(Save(config, active), order), clock, 0)
  }

  /** What the clocks read when a model's record is restored. */
  function ReadingOf(config: Config, active: seq<Record>, order: seq<string>, clock: Clock, key: Key): Reading {
    clock(IndexOf(ReadRows(Save(config, active), order), key))
  }

  lemma RestoredModel(s: States, config: Config, active: seq<Record>, order: seq<string>,
                      mono: real, wall: real, clock: Clock, key: Key)
    requires Canonical(config) && ListsActive(active, s, mono, wall) && Enumerates(order, Save(config, active).Keys)
    ensures var s', r := AfterRestart(config, active, order, clock), Persisted(s, config, key, mono, wall);
            var now := ReadingOf(config, active, order, clock, key);
            && (key in s' <==> Revives(r, now.wall))
            && (key in s' ==> s'[key] == State(r.value.failures, now.mono + (r.value.until - now.wall)))
  {
    var records := ReadRows(Save(config, active), order);
    LoadedAfterSave(s, config, active, order, mono, wall, key);
    var i := IndexOf(records, key);
    if i < |records| {
      RestoredAt(map[], records, clock, 0, i);
    } else {
      OthersUntouched(map[], records, clock, 0, key);
    }
  }

  lemma KeptCooldown(s: States, s': States, key: Key, mono1: real, wall1: real, mono2: real, wall2: real, elapsed: real)
    requires key in s && s[key].until > mono1 && mono1 >= 0.0 && mono2 >= 0.0 && elapsed >= 0.0
    requires var r := Exported(s, key, mono1, wall1);
             && (key in s' <==> r.until > wall2)
             && (key in s' ==> s'[key] == State(r.failures, mono2 + (r.until - wall2)))
    ensures key in s' ==>
              && s'[key].failures == s[key].failures
              && wall2 + (s'[key].until - mono2) == wall1 + (s[key].until - mono1)
    ensures Cooling(s', key, mono2 + elapsed) <==> Cooling(s, key, mono1 + (wall2 - wall1) + elapsed)
  {
  }

  /** Export at (mono1, wall1), save over a table that this program has written, load in any
      order, and restore into a new manager, whose clocks are read anew for each record. An
      exported cooldown keeps its failure count and its wall-clock deadline, and from then on
      the new process sees the model on cooldown exactly when the old one would have. Expired
      rows are not restored. */
  lemma RestartExact(s: States, config: Config, active: seq<Record>, order: seq<string>,
                     mono1: real, wall1: real, clock: Clock, key: Key, elapsed: real)
    requires Canonical(config) && ListsActive(active, s, mono1, wall1)
    requires Enumerates(order, Save(config, active).Keys)
    requires mono1 >= 0.0 && elapsed >= 0.0 && forall i :: clock(i).mono >= 0.0
    ensures var s', r := AfterRestart(config, active, order, clock), Persisted(s, config, key, mono1, wall1);
            var Reading(mono2, wall2) := ReadingOf(config, active, order, clock, key);
            && (key in s' <==> Revives(r, wall2))
            && (key in s' ==> s'[key] == State(r.value.failures, mono2 + (r.value.until - wall2)))
            && (key in s && s[key].until > mono1 ==>
                  && (key in s' ==>
                        && s'[key].failures == s[key].failures
                        && wall2 + (s'[key].until - mono2) == wall1 + (s[key].until - mono1))
                  && (Cooling(s', key, mono2 + elapsed) <==> Cooling(s, key, mono1 + (wall2 - wall1) + elapsed)))
  {
    RestoredModel(s, config, active, order, mono1, wall1, clock, key);
    if key in s && s[key].until > mono1 {
      var now := ReadingOf(config, active, order, clock, key);
      KeptCooldown(s, AfterRestart(config, active, order, clock), key, mono1, wall1, now.mono, now.wall, elapsed);
    }
  }

  /** The startup loop over the loaded records. */
  method Restore(manager: CooldownManager, records: seq<Record>, clock: Clock)
    modifies manager
    ensures manager.states == RestoreAll(old(manager.states), records, clock, 0)
  {
    for i := 0 to |records|
      invariant RestoreAll(old(manager.states), records, clock, 0) == RestoreAll(manager.states, records, clock, i)
    {
      manager.RestoreState(records[i], clock(i).mono, clock(i).wall);
    }
  }

  /** The start-up as events of the new manager's history. */
  function Restorations(records: seq<Record>, clock: Clock, k: nat): seq<Event>
    requires k <= |records|
    decreases |records| - k
  {
    if k == |records| then []
    else
      [Restoration(records[k].key, records[k].failures, records[k].until, clock(k).mono, clock(k).wall)]
      + Restorations(records, clock, k + 1)
  }

  lemma {:induction false} RestoringIsReplaying(s: States, records: seq<Record>, clock: Clock, k: nat)
    requires k <= |records|
    ensures Replay(s, Restorations(records, clock, k)) == RestoreAll(s, records, clock, k)
    decreases |records| - k
  {
    if k < |records| {
      RestoringIsReplaying(Restored(s, records[k], clock(k).mono, clock(k).wall), records, clock, k + 1);
      assert Restorations(records, clock, k)[1..] == Restorations(records, clock, k + 1);
    }
  }

  /** Whatever happens after a restart, the new process answers by the whole of its history,
      the restored failures included. */
  lemma CooldownAfterRestart(config: Config, active: seq<Record>, order: seq<string>, clock: Clock,
                             later: seq<Event>, key: Key, threshold: int, now: real)
    requires var history := Restorations(ReadRows(Save(config, active), order), clock, 0) + later;
             threshold >= 1 && Proper(history, key, threshold)
    ensures var history := Restorations(ReadRows(Save(config, active), order), clock, 0) + later;
            Cooling(Replay(AfterRestart(config, active, order, clock), later), key, now)
            <==> Cools(history, key, threshold, now)
  {
    var records := ReadRows(Save(config, active), order);
    RestoringIsReplaying(map[], records, clock, 0);
    ReplayConcat(map[], Restorations(records, clock, 0), later);
    CooldownExact(Restorations(records, clock, 0) + later, key, threshold, now);
  }

  /** After a restart only exported cooldowns are in force, if and only if the table held no
      unexpired row of another model: rows are never deleted when a model recovers, so a
      recovered model can come back on cooldown. */
  lemma OnlyExportedComeBack(s: States, config: Config, active: seq<Record>, order: seq<string>,
                             mono1: real, wall1: real, clock: Clock)
    requires Canonical(config) && ListsActive(active, s, mono1, wall1)
    requires Enumerates(order, Save(config, active).Keys)
    ensures (forall key :: key in AfterRestart(config, active, order, clock) ==> key in s && s[key].until > mono1)
            <==> (forall key :: Revives(Row(config, key), ReadingOf(config, active, order, clock, key).wall) ==>
                    key in s && s[key].until > mono1)
  {
    var s' := AfterRestart(config, active, order, clock);
    forall key: Key
      ensures (key in s' ==> key in s && s[key].until > mono1)
              <==> (Revives(Row(config, key), ReadingOf(config, active, order, clock, key).wall) ==>
                      key in s && s[key].until > mono1)
    {
      RestoredModel(s, config, active, order, mono1, wall1, clock, key);
    }
  }

  /** A model that succeeded after its cooldown was saved is put on cooldown by a restart. */
  lemma RecoveredModelComesBack()
    ensures exists s: States, config: Config, key: Key, order: seq<string>, clock: Clock ::
              && Canonical(config) && key in s && s[key] == State(0, 0.0)
              && !Cooling(s, key, 20.0) && ListsActive([], s, 20.0, 120.0)
              && Enumerates(order, Save(config, []).Keys) && clock(0) == Reading(0.0, 125.0)
              && Cooling(AfterRestart(config, [], order, clock), key, 5.0)
  {
    var key: Key := (1, 2);
    var s := Recovered(map[key := State(3, 70.0)], key);
    var config: Config := map[KeyText(key) := Saved(3, 170.0)];
    var order, clock: Clock := [KeyText(key)], _ => Reading(0.0, 125.0);
    KeyRoundTrip(key);
    assert Canonical(config) && s[key] == State(0, 0.0) && !Cooling(s, key, 20.0);
    assert ListsActive([], s, 20.0, 120.0) && Enumerates(order, Save(config, []).Keys);
    assert Revives(Persisted(s, config, key, 20.0, 120.0), 125.0);
    RestoredModel(s, config, [], order, 20.0, 120.0, clock, key);
    assert Cooling(AfterRestart(config, [], order, clock), key, 5.0);
  }
}
