/** The key space of the Redis stores: key builders as texts, and a database of typed entries. */
module RedisKeys {
  import opened Prelude
  import opened RunStates
  import opened Sequences

  datatype Entry = Snapshot(state: RunState) | Ids(ids: seq<string>) | Plain(text: string)

  type Db = map<string, Entry>

  datatype Key =
    | RunKey(id: string)
    | CheckpointKey(id: string)
    | ThreadCheckpointsKey(id: string)
    | ThreadRunsKey(id: string)
    | ThreadActiveKey(id: string)

  /** What a builder appends to "{prefix}:". */
  function Suffix(k: Key): string {
    match k
    case RunKey(id) => id
    case CheckpointKey(id) => "checkpoint:" + id
    case ThreadCheckpointsKey(id) => "thread:" + id + ":checkpoints"
    case ThreadRunsKey(id) => "thread:" + id + ":runs"
    case ThreadActiveKey(id) => "thread:" + id + ":active"
  }

  function Text(prefix: string, k: Key): string {
    prefix + ":" + Suffix(k)
  }

  /** The builders' texts, part by part. */
  lemma KeyTexts(prefix: string, id: string)
    ensures Text(prefix, RunKey(id)) == Joined([prefix, id])
    ensures Text(prefix, CheckpointKey(id)) == Joined([prefix, "checkpoint", id])
    ensures Text(prefix, ThreadCheckpointsKey(id)) == Joined([prefix, "thread", id, "checkpoints"])
    ensures Text(prefix, ThreadRunsKey(id)) == Joined([prefix, "thread", id, "runs"])
    ensures Text(prefix, ThreadActiveKey(id)) == Joined([prefix, "thread", id, "active"])
  {
    hide Joined;
    JoinedTwo(prefix, id);
    JoinedThree(prefix, "checkpoint", id);
    CheckpointText(id);
    ThreadText(prefix, id, "checkpoints", ":checkpoints");
    ThreadText(prefix, id, "runs", ":runs");
    ThreadText(prefix, id, "active", ":active");
  }

  lemma CheckpointText(id: string)
    ensures "checkpoint:" + id == "checkpoint" + ":" + id
  {
    assert "checkpoint:" == "checkpoint" + ":";
  }

  lemma ThreadText(prefix: string, id: string, tail: string, after: string)
    requires after == ":" + tail
    ensures prefix + ":" + ("thread:" + id + after) == Joined([prefix, "thread", id, tail])
  {
    hide Joined;
    JoinedFour(prefix, "thread", id, tail);
    assert "thread:" == "thread" + ":";
    assert "thread:" + id + after == "thread" + ":" + id + ":" + tail;
  }

  lemma JoinedThree(a: string, b: string, c: string)
    ensures Joined([a, b, c]) == a + ":" + (b + ":" + c)
  {
    JoinedTwo(b, c);
    JoinedMore(a, [b, c]);
    assert [a] + [b, c] == [a, b, c];
  }

  lemma JoinedFour(a: string, b: string, c: string, d: string)
    ensures Joined([a, b, c, d]) == a + ":" + (b + ":" + c + ":" + d)
  {
    JoinedThree(b, c, d);
    JoinedMore(a, [b, c, d]);
    assert [a] + [b, c, d] == [a, b, c, d];
    assert b + ":" + (c + ":" + d) == b + ":" + c + ":" + d;
  }

  /** The text is "thread:", some thread id, and this tail. */
  predicate Wrapped(id: string, tail: string) {
    |id| >= 7 + |tail| && id[..7] == "thread:" && id[|id| - |tail|..] == tail
  }

  /** A run id that reads like no other key: it does not begin "checkpoint:", nor lie between "thread:"
      and one of the three tails. */
  predicate SafeRunId(id: string) {
    && !("checkpoint:" <= id)
    && !Wrapped(id, ":checkpoints") && !Wrapped(id, ":runs") && !Wrapped(id, ":active")
  }

  predicate Safe(k: Key) {
    k.RunKey? ==> SafeRunId(k.id)
  }

  lemma SuffixUnsafe(k: Key)
    requires !k.RunKey?
    ensures !SafeRunId(Suffix(k))
  {
  }

  lemma WrappedSplits(id: string, tail: string)
    requires Wrapped(id, tail)
    ensures "thread:" + id[7..|id| - |tail|] + tail == id
  {
  }

  lemma UnsafeSuffix(id: string) returns (k: Key)
    requires !SafeRunId(id)
    ensures !k.RunKey? && Suffix(k) == id
  {
    hide Wrapped;
    if "checkpoint:" <= id {
      k := CheckpointKey(id[11..]);
    } else if Wrapped(id, ":checkpoints") {
      WrappedSplits(id, ":checkpoints");
      k := ThreadCheckpointsKey(id[7..|id| - 12]);
    } else if Wrapped(id, ":runs") {
      WrappedSplits(id, ":runs");
      k := ThreadRunsKey(id[7..|id| - 5]);
    } else {
      WrappedSplits(id, ":active");
      k := ThreadActiveKey(id[7..|id| - 7]);
    }
  }

  /** A run id keeps its key to itself exactly when it is safe. */
  lemma SafeExactly(prefix: string, id: string)
    ensures SafeRunId(id) <==> forall k: Key | !k.RunKey? :: Text(prefix, k) != Text(prefix, RunKey(id))
  {
    hide Suffix, SafeRunId;
    forall k: Key | !k.RunKey? ensures Text(prefix, k) == Text(prefix, RunKey(id)) ==> !SafeRunId(id) {
      SuffixUnsafe(k);
      SameSuffix(prefix, k, id);
    }
    if !SafeRunId(id) {
      var k := UnsafeSuffix(id);
      RunSuffix(id);
      assert Text(prefix, k) == Text(prefix, RunKey(id));
    }
  }

  lemma RunSuffix(id: string)
    ensures Suffix(RunKey(id)) == id
  {
  }

  lemma SameSuffix(prefix: string, k: Key, id: string)
    ensures Text(prefix, k) == Text(prefix, RunKey(id)) ==> Suffix(k) == id
  {
    var s := Suffix(k);
    assert s == (prefix + ":" + s)[|prefix| + 1..] && id == (prefix + ":" + id)[|prefix| + 1..];
  }

  lemma UnsafeHasColon(id: string)
    requires !SafeRunId(id)
    ensures ':' in id
  {
    hide Wrapped;
    if "checkpoint:" <= id {
      assert id[10] == ':';
    } else {
      WrappedStart(id, if Wrapped(id, ":checkpoints") then ":checkpoints" else if Wrapped(id, ":runs") then ":runs"
          else ":active");
    }
  }

  lemma WrappedStart(id: string, tail: string)
    requires Wrapped(id, tail)
    ensures ':' in id
  {
    assert id[..7][6] == id[6];
  }

  /** Colon-free run ids, such as uuids, are safe. */
  lemma ColonFreeIsSafe(id: string)
    requires ':' !in id
    ensures SafeRunId(id)
  {
    hide SafeRunId;
    if !SafeRunId(id) {
      UnsafeHasColon(id);
    }
  }

  lemma MiddleUnique(a: string, x: string, b: string, y: string)
    requires a + x + b == a + y + b
    ensures x == y
  {
    assert (a + x + b)[|a|..|a| + |x|] == x;
    assert (a + y + b)[|a|..|a| + |y|] == y;
  }

  /** The five builders never collide: not across kinds, not for any two ids of one kind, whatever
      the thread ids contain. */
  lemma KeysDistinct(prefix: string, k: Key, l: Key)
    requires Safe(k) && Safe(l)
    ensures Text(prefix, k) == Text(prefix, l) <==> k == l
  {
    if Text(prefix, k) == Text(prefix, l) {
      var s, t := Suffix(k), Suffix(l);
      assert s == (prefix + ":" + s)[|prefix| + 1..] && t == (prefix + ":" + t)[|prefix| + 1..];
      assert s == t;
      if !k.RunKey? {
        SuffixUnsafe(k);
      }
      if !l.RunKey? {
        SuffixUnsafe(l);
      }
      if !k.RunKey? && !l.RunKey? {
        assert s[0] == if k.CheckpointKey? then 'c' else 't';
        assert t[0] == if l.CheckpointKey? then 'c' else 't';
        if k.CheckpointKey? {
          assert k.id == s[11..] && l.id == t[11..];
        } else {
          assert s[|s| - 2] == match k case ThreadCheckpointsKey(_) => 't' case ThreadRunsKey(_) => 'n' case _ => 'v';
          assert t[|t| - 2] == match l case ThreadCheckpointsKey(_) => 't' case ThreadRunsKey(_) => 'n' case _ => 'v';
          MiddleUnique("thread:", k.id,
                       match k case ThreadCheckpointsKey(_) => ":checkpoints" case ThreadRunsKey(_) => ":runs" case _ =>
                         ":active", l.id);
        }
      }
    }
  }

  function At(db: Db, prefix: string, k: Key): Option<Entry> {
    if Text(prefix, k) in db then Some(db[Text(prefix, k)]) else None
  }

  lemma AfterSet(db: Db, prefix: string, k: Key, e: Entry)
    requires Safe(k)
    ensures forall l: Key | Safe(l) :: At(db[Text(prefix, k) := e], prefix, l) == if l == k then Some(e)
      else At(db, prefix, l)
  {
    forall l: Key | Safe(l) ensures At(db[Text(prefix, k) := e], prefix, l) == if l == k then Some(e)
      else At(db, prefix, l) {
      KeysDistinct(prefix, k, l);
    }
  }

  lemma AfterDelete(db: Db, prefix: string, k: Key)
    requires Safe(k)
    ensures forall l: Key | Safe(l) :: At(db - {Text(prefix, k)}, prefix, l) == if l == k then None
      else At(db, prefix, l)
  {
    forall l: Key | Safe(l) ensures At(db - {Text(prefix, k)}, prefix, l) == if l == k then None
      else At(db, prefix, l) {
      KeysDistinct(prefix, k, l);
    }
  }
}
