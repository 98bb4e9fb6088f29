/**
 * The script map of one chat (`get_scripts_for_group`): a Python dict from
 * script name to path, which keeps the order in which names were FIRST
 * inserted while a later assignment to the same name replaces its path.
 */
module ScriptTable {
  import opened BotConfig

  /** An insertion-ordered dictionary: the names in insertion order plus the lookup map. */
  datatype Table = Table(names: seq<string>, paths: map<string, string>)

  function EmptyTable(): Table {
    Table([], map[])
  }

  /** Names are distinct and are exactly the keys of the lookup map. */
  ghost predicate Valid(t: Table) {
    && (forall i, j :: 0 <= i < j < |t.names| ==> t.names[i] != t.names[j])
    && (forall k :: k in t.paths <==> k in t.names)
  }

  /** `d[k] = v`: a new key goes to the end, an existing key keeps its place. */
  function Insert(t: Table, k: string, v: string): (r: Table)
    ensures r.paths == t.paths[k := v]
    ensures Valid(t) ==> Valid(r)
    ensures Valid(t) ==> |r.names| == if k in t.paths then |t.names| else |t.names| + 1
    ensures k in t.paths ==> r.names == t.names
    ensures k !in t.paths ==> r.names == t.names + [k]
  {
    if k in t.paths then Table(t.names, t.paths[k := v])
    else Table(t.names + [k], t.paths[k := v])
  }

  /** The table the `for script in scripts` loop has built after the given entries. */
  function Project(entries: seq<Script>): (t: Table)
    ensures Valid(t)
    decreases |entries|
  {
    if |entries| == 0 then EmptyTable()
    else
      var last := entries[|entries| - 1];
      Insert(Project(entries[..|entries| - 1]), last.name, last.path)
  }

  /** Index of the first entry called `k`, or `|entries|` when there is none. */
  function FirstIndex(entries: seq<Script>, k: string): (r: nat)
    ensures r <= |entries|
    ensures r < |entries| ==> entries[r].name == k
    ensures forall j :: 0 <= j < r ==> entries[j].name != k
    decreases |entries|
  {
    if |entries| == 0 then 0
    else
      var n := |entries| - 1;
      var p := FirstIndex(entries[..n], k);
      if p < n then p else if entries[n].name == k then n else |entries|
  }

  /** The keys of the projected table are exactly the configured script names. */
  lemma {:induction false} ProjectKeys(entries: seq<Script>, k: string)
    ensures k in Project(entries).paths <==> exists i :: 0 <= i < |entries| && entries[i].name == k
    decreases |entries|
  {
    if |entries| > 0 {
      var n := |entries| - 1;
      var prefix := entries[..n];
      ProjectKeys(prefix, k);
      if k in Project(prefix).paths {
        var i :| 0 <= i < |prefix| && prefix[i].name == k;
        assert entries[i].name == k;
      }
      if exists i :: 0 <= i < |entries| && entries[i].name == k {
        var i :| 0 <= i < |entries| && entries[i].name == k;
        if i < n {
          assert prefix[i].name == k;
        }
      }
    }
  }

  /** A later entry with the same name overwrites an earlier one's path: the last one wins. */
  lemma {:induction false} ProjectLastWins(entries: seq<Script>, i: nat)
    requires i < |entries|
    requires forall j :: i < j < |entries| ==> entries[j].name != entries[i].name
    ensures entries[i].name in Project(entries).paths
    ensures Project(entries).paths[entries[i].name] == entries[i].path
    decreases |entries|
  {
    var n := |entries| - 1;
    if i < n {
      var prefix := entries[..n];
      assert prefix[i] == entries[i];
      ProjectLastWins(prefix, i);
    }
  }

  /** Names listed in the order of their first occurrence among the entries. */
  ghost predicate InFirstOccurrenceOrder(entries: seq<Script>, names: seq<string>) {
    forall a, b :: 0 <= a < b < |names| ==> FirstIndex(entries, names[a]) < FirstIndex(entries, names[b])
  }

  /** Every listed name occurs among the entries. */
  ghost predicate AllOccur(entries: seq<Script>, names: seq<string>) {
    forall a :: 0 <= a < |names| ==> FirstIndex(entries, names[a]) < |entries|
  }

  /** Appending an entry keeps the first index of every name that already occurred. */
  lemma FirstIndicesKept(entries: seq<Script>, names: seq<string>)
    requires |entries| > 0
    requires AllOccur(entries[..|entries| - 1], names)
    ensures forall a :: 0 <= a < |names| ==>
              FirstIndex(entries, names[a]) == FirstIndex(entries[..|entries| - 1], names[a])
  {
  }

  /** The table lists each name where it FIRST occurs among the entries. */
  lemma {:induction false} ProjectOrder(entries: seq<Script>)
    ensures InFirstOccurrenceOrder(entries, Project(entries).names)
    ensures AllOccur(entries, Project(entries).names)
    decreases |entries|
  {
    if |entries| > 0 {
      var n := |entries| - 1;
      var prefix := entries[..n];
      var x := entries[n].name;
      var before := Project(prefix);
      var after := Project(entries);
      ProjectOrder(prefix);
      FirstIndicesKept(entries, before.names);
      if x in before.paths {
        assert after.names == before.names;
      } else {
        assert after.names == before.names + [x];
        ProjectKeys(prefix, x);
        assert FirstIndex(prefix, x) == n;
        assert FirstIndex(entries, x) == n;
      }
    }
  }

  /** The entries `get_scripts_for_group` iterates over: none for an unconfigured chat. */
  function ConfiguredScripts(cfg: Config, chat: int): seq<Script> {
    if Configured(cfg, chat) then GetGroupConfig(cfg, chat).value.scripts.GetOr([]) else []
  }

  /** `get_scripts_for_group`, as a value. */
  function ScriptsForGroup(cfg: Config, chat: int): (t: Table)
    ensures Valid(t)
    ensures !Configured(cfg, chat) ==> t == EmptyTable()
  {
    if Configured(cfg, chat) then Project(ConfiguredScripts(cfg, chat)) else EmptyTable()
  }

  /**
   * The script map of a chat: its names are exactly the configured names,
   * each mapped to the path of its last entry, listed in first-occurrence order.
   */
  lemma ScriptsForGroupShape(cfg: Config, chat: int, k: string)
    ensures var t := ScriptsForGroup(cfg, chat);
            var es := ConfiguredScripts(cfg, chat);
            && (k in t.paths <==> exists i :: 0 <= i < |es| && es[i].name == k)
            && (forall i :: (0 <= i < |es| && es[i].name == k && (forall j :: i < j < |es| ==> es[j].name != k))
                  ==> k in t.paths && t.paths[k] == es[i].path)
            && InFirstOccurrenceOrder(es, t.names)
  {
    var es := ConfiguredScripts(cfg, chat);
    assert ScriptsForGroup(cfg, chat) == Project(es);
    ProjectKeys(es, k);
    ProjectOrder(es);
    forall i | 0 <= i < |es| && es[i].name == k && (forall j :: i < j < |es| ==> es[j].name != k)
      ensures k in Project(es).paths && Project(es).paths[k] == es[i].path
    {
      ProjectLastWins(es, i);
    }
  }

  /** The loop of `get_scripts_for_group`. */
  method GetScriptsForGroup(cfg: Config, chat: int) returns (t: Table)
    ensures t == ScriptsForGroup(cfg, chat)
  {
    var group := GetGroupConfig(cfg, chat);
    if group.None? || !group.value.Truthy() {
      return EmptyTable();
    }
    var entries := group.value.scripts.GetOr([]);
    t := EmptyTable();
    var i := 0;
    while i < |entries|
      invariant 0 <= i <= |entries|
      invariant t == Project(entries[..i])
    {
      assert entries[..i + 1][..i] == entries[..i];
      t := Insert(t, entries[i].name, entries[i].path);
      i := i + 1;
    }
    assert entries[..|entries|] == entries;
  }
}
