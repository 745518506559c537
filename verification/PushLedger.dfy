/**
  Durable ledgers of the push benchmark: group commit with acknowledgements
  (internal/cloud/push_ledger.go) and the planned journal that syncs when its queue runs empty
  (internal/cloud/push_journal.go).

  The file may write short, refuse a write or fail to sync at any time; encoding an entry is an
  arbitrary function that may fail.
 */
module PushLedger {
  import opened Common

  // A file: its bytes, and how many of them have reached the disk.
  class File {
    var content: seq<byte>
    var synced: nat

    ghost predicate Valid()
      reads this
    {
      synced <= |content|
    }

    constructor ()
      ensures Valid() && content == [] && synced == 0
    {
      content, synced := [], 0;
    }

    /** Appends some of `p`, and says how much. */
    method Write(p: seq<byte>) returns (n: nat, ok: bool)
      requires Valid()
      modifies this`content
      ensures Valid() && n <= |p| && content == old(content) + p[..n]
    {
      n :| 0 <= n <= |p|;
      ok := *;
      content := content + p[..n];
    }

    method Sync() returns (ok: bool)
      requires Valid()
      modifies this`synced
      ensures Valid() && old(synced) <= synced && (ok ==> synced == |content|)
    {
      ok := *;
      var reached: nat :| synced <= reached <= |content|;
      synced := if ok then |content| else reached;
    }
  }

  // ---------- Encoded entries ----------

  ghost function EncodeAll<E>(encode: E -> Option<seq<byte>>, entries: seq<E>): seq<byte> {
    if entries == [] then []
    else
      var e := encode(entries[|entries| - 1]);
      EncodeAll(encode, entries[..|entries| - 1]) + (if e.Some? then e.value else [])
  }

  lemma EncodeOne<E>(encode: E -> Option<seq<byte>>, entries: seq<E>, e: E)
    ensures EncodeAll(encode, entries + [e]) == EncodeAll(encode, entries) + (if encode(e).Some? then encode(e).value else [])
  {
    assert (entries + [e])[..|entries|] == entries;
  }

  lemma {:induction false} EncodeConcat<E>(encode: E -> Option<seq<byte>>, a: seq<E>, b: seq<E>)
    ensures EncodeAll(encode, a + b) == EncodeAll(encode, a) + EncodeAll(encode, b)
  {
    if b == [] {
      assert a + b == a;
    } else {
      assert (a + b)[..|a + b| - 1] == a + b[..|b| - 1];
      EncodeConcat(encode, a, b[..|b| - 1]);
    }
  }

  // ---------- Group commit ----------

  class GroupedLedger<E> {
    const file: File
    const encode: E -> Option<seq<byte>>
    const batch: nat
    var failure: bool
    // Every acknowledgement sent, in order.
    var acks: seq<bool>

    // The requests received, and how many of them were acknowledged without error.
    ghost var requests: seq<E>
    ghost var stored: nat

    ghost predicate Valid()
      reads this, file
    {
      && file.Valid()
      && |acks| == |requests| && stored <= |requests|
      && (forall i :: 0 <= i < |acks| ==> (acks[i] <==> i < stored))
      && EncodeAll(encode, requests[..stored]) <= file.content[..file.synced]
      && (!failure ==> stored == |requests| && file.content == EncodeAll(encode, requests) && file.synced == |file.content|)
    }

    constructor (encode: E -> Option<seq<byte>>, batch: nat)
      ensures Valid() && fresh(file) && requests == [] && acks == [] && !failure
      ensures this.encode == encode && this.batch == batch
    {
      file := new File();
      this.encode, this.batch := encode, batch;
      failure, acks, requests, stored := false, [], [], 0;
    }

    // The group's bytes, or none if an entry cannot be encoded.
    method EncodeGroup(group: seq<E>) returns (buf: seq<byte>, ok: bool)
      ensures ok ==> buf == EncodeAll(encode, group)
    {
      buf := [];
      for i := 0 to |group|
        invariant buf == EncodeAll(encode, group[..i])
      {
        assert group[..i + 1] == group[..i] + [group[i]];
        EncodeOne(encode, group[..i], group[i]);
        match encode(group[i]) {
          case None => return buf, false;
          case Some(bytes) => buf := buf + bytes;
        }
      }
      assert group[..|group|] == group;
      ok := true;
    }

    // Writes and syncs one group, unless something failed before.
    method Store(group: seq<E>) returns (ok: bool)
      requires file.Valid()
      requires !failure ==> file.synced == |file.content|
      modifies this`failure, file
      ensures file.Valid() && old(file.synced) <= file.synced && old(file.content) <= file.content
      ensures ok == !failure && (old(failure) ==> failure && file.content == old(file.content))
      ensures ok ==> file.content == old(file.content) + EncodeAll(encode, group) && file.synced == |file.content|
    {
      if !failure {
        var buf, encoded := EncodeGroup(group);
        if !encoded { failure := true; }
        if !failure {
          var n, written := file.Write(buf);
          if !written || n != |buf| { failure := true; }
          assert n == |buf| ==> buf[..n] == buf;
        }
        if !failure {
          var synced := file.Sync();
          if !synced { failure := true; }
        }
      }
      ok := !failure;
    }

    /**
      A group is answered together: success means that every request so far is on disk in order,
      and after a failure there is no success.
     */
    method Serve(group: seq<E>) returns (ok: bool)
      requires Valid() && group != []
      modifies this, file
      ensures Valid() && requests == old(requests) + group
      ensures acks == old(acks) + seq(|group|, _ => ok)
      ensures old(failure) ==> !ok
      ensures ok ==> EncodeAll(encode, requests) == file.content && file.synced == |file.content|
    {
      ghost var before, wasStored := requests, stored;
      ok := Store(group);
      EncodeConcat(encode, before, group);
      for i := 0 to |group|
        modifies this`acks
        invariant acks == old(acks) + seq(i, _ => ok)
      {
        acks := acks + [ok];
      }
      requests := before + group;
      if ok { stored := |requests|; }
      assert requests[..wasStored] == before[..wasStored];
      assert requests[..|requests|] == requests && before[..|before|] == before;
    }

    /** All requests ever sent, collected into groups of any size up to the batch. */
    method ServeAll(all: seq<E>)
      requires Valid() && requests == [] && !failure
      modifies this, file
      ensures Valid() && requests == all && |acks| == |all|
    {
      var i := 0;
      while i < |all|
        invariant Valid() && 0 <= i <= |all| && requests == all[..i]
        decreases |all| - i
      {
        var most := if batch > 1 && batch < |all| - i then batch else if batch > 1 then |all| - i else 1;
        var n :| 1 <= n <= most;
        var ok := Serve(all[i..i + n]);
        assert all[..i + n] == all[..i] + all[i..i + n];
        i := i + n;
      }
      assert all[..|all|] == all;
    }

    /** An acknowledgement without error means the entry, and all before it, were written in order and synced. */
    lemma AckMeansDurable(i: nat)
      requires Valid() && i < |acks| && acks[i]
      ensures EncodeAll(encode, requests[..i + 1]) <= file.content[..file.synced]
      ensures forall j :: 0 <= j <= i ==> acks[j]
    {
      assert requests[..stored] == requests[..i + 1] + requests[i + 1..stored];
      EncodeConcat(encode, requests[..i + 1], requests[i + 1..stored]);
    }
  }

  // ---------- The planned journal ----------

  class PlannedJournal<E> {
    const file: File
    const encode: E -> Option<seq<byte>>
    var queue: seq<E>
    // Bytes encoded but not yet written.
    var buffer: seq<byte>
    var failure: bool

    // Everything recorded, and how much of it the worker has taken.
    ghost var recorded: seq<E>
    ghost var taken: nat

    ghost predicate Valid()
      reads this, file
    {
      && file.Valid()
      && taken <= |recorded| && queue == recorded[taken..]
      && (!failure ==> file.content + buffer == EncodeAll(encode, recorded[..taken]))
      && (!failure && queue == [] ==> buffer == [] && file.synced == |file.content|)
    }

    constructor (encode: E -> Option<seq<byte>>)
      ensures Valid() && fresh(file) && recorded == [] && !failure && this.encode == encode
    {
      file := new File();
      this.encode := encode;
      queue, buffer, failure, recorded, taken := [], [], false, [], 0;
    }

    /** Recording an entry queues it; the answer is only whether something has failed so far. */
    method Record(e: E) returns (ok: bool)
      requires Valid()
      modifies this`queue, this`recorded
      ensures Valid() && recorded == old(recorded) + [e] && ok == !failure && queue == old(queue) + [e]
    {
      assert (recorded + [e])[..taken] == recorded[..taken] && (recorded + [e])[taken..] == recorded[taken..] + [e];
      queue := queue + [e];
      recorded := recorded + [e];
      ok := !failure;
    }

    // The buffer passes some of its bytes on, as it does when it fills up, or all of them.
    method Spill(n: nat) returns (ok: bool)
      requires file.Valid() && n <= |buffer|
      modifies this`buffer, file`content
      ensures file.Valid() && (ok ==> file.content + buffer == old(file.content + buffer) && |buffer| == |old(buffer)| - n)
    {
      var written, fine := file.Write(buffer[..n]);
      ok := fine && written == n;
      if ok {
        assert old(file.content) + buffer == old(file.content) + buffer[..n] + buffer[n..];
        assert buffer[..n][..written] == buffer[..n];
        buffer := buffer[n..];
      }
    }

    /** The worker handles the oldest entry; with nothing left behind it, everything is flushed and synced. */
    method Work()
      requires Valid() && queue != []
      modifies this`queue, this`buffer, this`failure, this`taken, file
      ensures Valid() && queue == old(queue)[1..]
      ensures old(failure) ==> failure
    {
      var e := queue[0];
      queue := queue[1..];
      assert recorded[..taken + 1] == recorded[..taken] + [recorded[taken]];
      EncodeOne(encode, recorded[..taken], e);
      taken := taken + 1;
      if failure { return; }
      match encode(e) {
        case None => failure := true;
        case Some(bytes) =>
          assert file.content + (buffer + bytes) == file.content + buffer + bytes;
          buffer := buffer + bytes;
          var n: nat :| 0 <= n <= |buffer|;
          var ok := Spill(n);
          if ok && |queue| == 0 {
            ok := Spill(|buffer|);
            if ok { ok := file.Sync(); }
          }
          if !ok { failure := true; }
      }
    }

    /** Draining without error means that every recorded entry was written in order and synced. */
    method Drain() returns (ok: bool)
      requires Valid()
      modifies this`queue, this`buffer, this`failure, this`taken, file
      ensures Valid() && queue == [] && ok == !failure
      ensures ok ==> file.content == EncodeAll(encode, recorded) && file.synced == |file.content|
    {
      while |queue| > 0
        invariant Valid()
        decreases |queue|
      {
        Work();
      }
      ok := !failure;
      assert recorded[..|recorded|] == recorded;
    }
  }
}
