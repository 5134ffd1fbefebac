// groundhog/log.py: the replicated log, 1-based, with a sentinel at index 0.
module Log {
  import opened Types
  import opened Kv

  const SENTINEL_INDEX: Index := 0
  const SENTINEL_TERM: Term := 0

  datatype LogEntry = LogEntry(term: Term, index: Index, command: Command)

  /** What `_check_contiguous` accepts: the entry in position i claims index i + 1. */
  predicate Contiguous(entries: seq<LogEntry>) {
    forall i :: 0 <= i < |entries| ==> entries[i].index == i + 1
  }

  function LastTerm(entries: seq<LogEntry>): Term {
    if entries == [] then SENTINEL_TERM else entries[|entries| - 1].term
  }

  function TermAt(entries: seq<LogEntry>, index: Index): Term
    requires index <= |entries|
  {
    if index == SENTINEL_INDEX then SENTINEL_TERM else entries[index - 1].term
  }

  /** The store a log builds: its commands applied in order to `store`. */
  function Fold(store: Store, entries: seq<LogEntry>): Store
    decreases |entries|
  {
    if entries == [] then store else Fold(Applied(store, entries[0].command), entries[1..])
  }

  lemma {:induction false} FoldAppend(store: Store, xs: seq<LogEntry>, ys: seq<LogEntry>)
    ensures Fold(store, xs + ys) == Fold(Fold(store, xs), ys)
    decreases |xs|
  {
    if xs == [] {
      assert xs + ys == ys;
    } else {
      assert (xs + ys)[1..] == xs[1..] + ys;
      FoldAppend(Applied(store, xs[0].command), xs[1..], ys);
    }
  }

  lemma {:induction false} FoldCounts(store: Store, xs: seq<LogEntry>)
    ensures Fold(store, xs).applied == store.applied + |xs|
    decreases |xs|
  {
    if xs != [] {
      FoldCounts(Applied(store, xs[0].command), xs[1..]);
    }
  }

  /** The last command of a log that names `key`. */
  function LastOn(entries: seq<LogEntry>, key: Text): Option<Command>
    decreases |entries|
  {
    if entries == [] then None
    else
      var last := entries[|entries| - 1].command;
      if last.key == key then Some(last) else LastOn(entries[..|entries| - 1], key)
  }

  /** The last write wins: a key is held if the last command on it is a put, with that value. */
  lemma {:induction false} LastWriteWins(entries: seq<LogEntry>, key: Text)
    ensures var data, last := Fold(EMPTY_STORE, entries).data, LastOn(entries, key);
            && (key in data <==> last.Some? && last.value.op == PUT)
            && (key in data ==> data[key] == last.value.value)
    decreases |entries|
  {
    if entries != [] {
      var front, last := entries[..|entries| - 1], entries[|entries| - 1];
      assert entries == front + [last];
      FoldAppend(EMPTY_STORE, front, [last]);
      var before := Fold(EMPTY_STORE, front);
      assert Fold(before, [last]) == Fold(Applied(before, last.command), []);
      LastWriteWins(front, key);
    }
  }

  /** A store rebuilt from the encoded commands of a log is the store the log builds. */
  lemma {:induction false} FoldRebuilds(store: Store, entries: seq<LogEntry>, records: seq<seq<byte>>)
    requires |records| == |entries|
    requires forall i :: 0 <= i < |entries| ==> EncodeCommand(entries[i].command) == Some(records[i])
    ensures Decodable(records) && Build(store, records) == Fold(store, entries)
    decreases |entries|
  {
    forall i | 0 <= i < |records| ensures DecodeCommand(records[i]) == Some(entries[i].command) {
      CommandRoundTrip(entries[i].command);
    }
    if entries != [] {
      FoldRebuilds(Applied(store, entries[0].command), entries[1..], records[1..]);
    }
  }

  /** How many of `entries` carry the indices that follow `last`, before one does not. */
  function Following(last: Index, entries: seq<LogEntry>): (k: nat)
    ensures k <= |entries| && forall i :: 0 <= i < k ==> entries[i].index == last + 1 + i
    ensures k < |entries| ==> entries[k].index != last + 1 + k
    decreases |entries|
  {
    if entries == [] || entries[0].index != last + 1 then 0 else 1 + Following(last + 1, entries[1..])
  }

  lemma FollowingIs(last: Index, entries: seq<LogEntry>, k: nat)
    requires k <= |entries| && forall i :: 0 <= i < k ==> entries[i].index == last + 1 + i
    requires k < |entries| ==> entries[k].index != last + 1 + k
    ensures Following(last, entries) == k
  {
    hide Following;
  }

  class RaftLog {
    var items: seq<LogEntry>

    predicate Valid()
      reads this
    {
      Contiguous(items)
    }

    /** `_check_contiguous` would raise on anything else. */
    constructor (entries: seq<LogEntry>)
      requires Contiguous(entries)
      ensures Valid() && items == entries
    {
      items := entries;
    }

    method LastIndex() returns (index: Index)
      requires Valid()
      ensures index == |items|
    {
      index := if items != [] then items[|items| - 1].index else SENTINEL_INDEX;
    }

    /** The sentinel is in every log. */
    method HasEntry(index: Index) returns (has: bool)
      requires Valid()
      ensures has <==> index <= |items|
    {
      var last := LastIndex();
      has := SENTINEL_INDEX <= index <= last;
    }

    /** There is no answer past the end. */
    method TermOf(index: Index) returns (status: Status, term: Term)
      requires Valid()
      ensures status == if index <= |items| then Ok else Raised(IndexError)
      ensures status.Ok? ==> term == TermAt(items, index)
    {
      if index == SENTINEL_INDEX {
        return Ok, SENTINEL_TERM;
      }
      var last := LastIndex();
      if !(1 <= index <= last) {
        return Raised(IndexError), SENTINEL_TERM;
      }
      return Ok, items[index - 1].term;
    }

    /** Entries are appended up to the first whose index is not the next one. */
    method Append(entries: seq<LogEntry>) returns (status: Status)
      requires Valid()
      modifies this
      ensures Valid()
      ensures var k := Following(old(|items|), entries);
              && items == old(items) + entries[..k]
              && status == if k == |entries| then Ok else Raised(ValueError)
      ensures status.Ok? ==> items == old(items) + entries
    {
      hide Following;
      var i := 0;
      while i < |entries|
        invariant 0 <= i <= |entries|
        invariant Valid() && items == old(items) + entries[..i]
        invariant forall k :: 0 <= k < i ==> entries[k].index == old(|items|) + 1 + k
      {
        var last := LastIndex();
        if entries[i].index != last + 1 {
          FollowingIs(old(|items|), entries, i);
          return Raised(ValueError);
        }
        assert entries[..i + 1] == entries[..i] + [entries[i]];
        items := items + [entries[i]];
        i := i + 1;
      }
      assert entries[..i] == entries;
      FollowingIs(old(|items|), entries, i);
      status := Ok;
    }

    /** Keeps the entries before `index`; the sentinel cannot be cut off. */
    method TruncateFrom(index: Index) returns (status: Status)
      requires Valid()
      modifies this
      ensures Valid()
      ensures status == if index > SENTINEL_INDEX then Ok else Raised(IndexError)
      ensures items == if index > SENTINEL_INDEX then old(items)[..Min(index - 1, |old(items)|)] else old(items)
    {
      if index <= SENTINEL_INDEX {
        return Raised(IndexError);
      }
      if index - 1 < |items| {
        items := items[..index - 1];
      } else {
        assert items[..|items|] == items;
      }
      status := Ok;
    }

    method Create(term: Term, command: Command) returns (entry: LogEntry)
      requires Valid()
      ensures entry == LogEntry(term, |items| + 1, command)
    {
      var last := LastIndex();
      entry := LogEntry(term, last + 1, command);
    }
  }
}
