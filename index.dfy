/**
 * The case-insensitive knowledge base: the parsed JSON object, its keys
 * lower-cased into a lookup map, and the lookup both handlers perform.
 */
module LoreIndex {
  import opened Ascii
  import opened Lore

  /** The value stored under a character's name. A record that is present
      but empty (`{}`) is falsy in Python, and the handlers treat it like a
      missing one. */
  datatype Entry = Falsy | Record(record: CharacterRecord)

  /** The result of a lookup, as the handlers' `if character_data:` sees it. */
  datatype Lookup = Found(record: CharacterRecord) | NotFound

  /** `{k.lower(): v for k, v in destiny2_characters.items()}`: the entries
      in the object's order, each written under its lower-cased key, so that
      a later entry overwrites an earlier one with the same lowered key. */
  function BuildIndex(entries: seq<(string, Entry)>): (index: map<string, Entry>)
  {
    if entries == [] then map[]
    else
      var n := |entries| - 1;
      BuildIndex(entries[..n])[Lower(entries[n].0) := entries[n].1]
  }

  /** The index holds exactly the lower-cased names, and every key is in lower case. */
  lemma {:induction false} IndexKeys(entries: seq<(string, Entry)>)
    ensures BuildIndex(entries).Keys == set i | 0 <= i < |entries| :: Lower(entries[i].0)
    ensures forall k :: k in BuildIndex(entries) ==> Lower(k) == k
  {
    if entries != [] {
      var n := |entries| - 1;
      IndexKeys(entries[..n]);
      assert (set i | 0 <= i < |entries| :: Lower(entries[i].0))
        == (set i | 0 <= i < n :: Lower(entries[..n][i].0)) + {Lower(entries[n].0)};
      LowerForgetsCase(entries[n].0);
    }
  }

  /** Last write wins: the index maps a lowered name to the value of the
      last entry whose name lowers to it. */
  lemma {:induction false} LastWriteWins(entries: seq<(string, Entry)>, i: nat)
    requires i < |entries|
    requires forall j :: i < j < |entries| ==> Lower(entries[j].0) != Lower(entries[i].0)
    ensures Lower(entries[i].0) in BuildIndex(entries)
    ensures BuildIndex(entries)[Lower(entries[i].0)] == entries[i].1
  {
    var n := |entries| - 1;
    if i < n {
      assert entries[..n][i] == entries[i];
      LastWriteWins(entries[..n], i);
    }
  }

  /** `lowercase_lore.get(query.lower())` and the truthiness test after it. */
  function Resolve(index: map<string, Entry>, query: string): (r: Lookup)
  {
    var key := Lower(query);
    if key in index && index[key].Record? then Found(index[key].record) else NotFound
  }

  /** The lookup ignores the query's case: `s`, `s.upper()` and `s.lower()`
      find the same thing, and so does any query with the same lower case. */
  lemma ResolveCaseInsensitive(index: map<string, Entry>, query: string, other: string)
    requires Lower(other) == Lower(query)
    ensures Resolve(index, Upper(query)) == Resolve(index, query)
    ensures Resolve(index, Lower(query)) == Resolve(index, query)
    ensures Resolve(index, other) == Resolve(index, query)
  {
    LowerForgetsCase(query);
  }

  /** A query that names an entry, in any case, finds that entry's record
      when it is the last entry under that lowered name and is not empty. */
  lemma ResolveFinds(entries: seq<(string, Entry)>, query: string, i: nat)
    requires i < |entries|
    requires Lower(query) == Lower(entries[i].0)
    requires forall j :: i < j < |entries| ==> Lower(entries[j].0) != Lower(entries[i].0)
    requires entries[i].1.Record?
    ensures Resolve(BuildIndex(entries), query) == Found(entries[i].1.record)
  {
    LastWriteWins(entries, i);
  }

  /** A present but empty record is reported as not found. */
  lemma ResolveFalsy(entries: seq<(string, Entry)>, query: string, i: nat)
    requires i < |entries|
    requires Lower(query) == Lower(entries[i].0)
    requires forall j :: i < j < |entries| ==> Lower(entries[j].0) != Lower(entries[i].0)
    requires entries[i].1 == Falsy
    ensures Resolve(BuildIndex(entries), query) == NotFound
  {
    LastWriteWins(entries, i);
  }

  /** A query whose lower case is no entry's lowered name is not found, and
      no error is raised. */
  lemma ResolveMissing(entries: seq<(string, Entry)>, query: string)
    requires forall j :: 0 <= j < |entries| ==> Lower(entries[j].0) != Lower(query)
    ensures Resolve(BuildIndex(entries), query) == NotFound
  {
    IndexKeys(entries);
  }

  /** Entry `i` is the last one whose name lowers to `key`. */
  predicate LastWriter(entries: seq<(string, Entry)>, i: nat, key: string)
  {
    i < |entries| && Lower(entries[i].0) == key
    && forall j :: i < j < |entries| ==> Lower(entries[j].0) != key
  }

  lemma LastWriterExtends(entries: seq<(string, Entry)>, i: nat, key: string)
    requires entries != []
    requires LastWriter(entries[..|entries| - 1], i, key)
    requires Lower(entries[|entries| - 1].0) != key
    ensures LastWriter(entries, i, key)
  {
    var n := |entries| - 1;
    assert entries[i] == entries[..n][i];
    assert forall j :: i < j < n ==> entries[j] == entries[..n][j];
  }

  /** Whatever a lookup finds is the record of the last entry whose name
      has the query's lower case. */
  lemma {:induction false} ResolveOrigin(entries: seq<(string, Entry)>, query: string)
    requires Resolve(BuildIndex(entries), query).Found?
    ensures exists i: nat :: (LastWriter(entries, i, Lower(query))
      && entries[i].1 == Record(Resolve(BuildIndex(entries), query).record))
  {
    var n := |entries| - 1;
    var key := Lower(query);
    if Lower(entries[n].0) != key {
      var prefix := entries[..n];
      assert Resolve(BuildIndex(prefix), query) == Resolve(BuildIndex(entries), query);
      ResolveOrigin(prefix, query);
      var i: nat :| LastWriter(prefix, i, key) && prefix[i].1 == Record(Resolve(BuildIndex(prefix), query).record);
      LastWriterExtends(entries, i, key);
      assert entries[i] == prefix[i];
    } else {
      assert LastWriter(entries, n, key);
    }
  }

  /** The slash command does not strip its argument: when no name in the
      knowledge base begins with whitespace, a query that does is never found. */
  lemma PaddedQueryMisses(entries: seq<(string, Entry)>, query: string)
    requires query != [] && IsSpace(query[0])
    requires forall j :: 0 <= j < |entries| ==> entries[j].0 == [] || !IsSpace(entries[j].0[0])
    ensures Resolve(BuildIndex(entries), query) == NotFound
  {
    forall j | 0 <= j < |entries| ensures Lower(entries[j].0) != Lower(query) {
      assert Lower(query)[0] == query[0];
      if entries[j].0 != [] {
        assert Lower(entries[j].0)[0] == LowerChar(entries[j].0[0]);
      }
    }
    ResolveMissing(entries, query);
  }
}
