/** `groupMessagesByThread`: a reduce that pushes every message onto the
    array of its thread key in a dictionary accumulator. */
module MessageThreading {
  import opened Types

  const DefaultThread: string := "default"

  /** `message.session_id || message.sender_id || 'default'`. */
  function ThreadKey(m: Message): (k: string)
    ensures Truthy(m.sessionId) ==> k == m.sessionId.value
    ensures !Truthy(m.sessionId) && Truthy(m.senderId) ==> k == m.senderId.value
    ensures !Truthy(m.sessionId) && !Truthy(m.senderId) ==> k == DefaultThread
  {
    if Truthy(m.sessionId) then m.sessionId.value
    else if Truthy(m.senderId) then m.senderId.value
    else DefaultThread
  }

  /** The messages of `ms` whose key is `k`, in input order. */
  function InThread(ms: seq<Message>, k: string): (r: seq<Message>)
    ensures |r| <= |ms|
    ensures forall m :: m in r ==> m in ms && ThreadKey(m) == k
  {
    if ms == [] then []
    else
      var prev := InThread(ms[..|ms| - 1], k);
      if ThreadKey(ms[|ms| - 1]) == k then prev + [ms[|ms| - 1]] else prev
  }

  /** The set of thread keys of `ms`. */
  function Keys(ms: seq<Message>): set<string> {
    set m | m in ms :: ThreadKey(m)
  }

  /** The distinct thread keys of `ms`, in order of first appearance. */
  function KeysInOrder(ms: seq<Message>): seq<string> {
    if ms == [] then []
    else
      var prev := KeysInOrder(ms[..|ms| - 1]);
      var k := ThreadKey(ms[|ms| - 1]);
      if k in prev then prev else prev + [k]
  }

  /** The threads dictionary the reduce builds: one entry per key, holding that key's messages. */
  ghost predicate IsGrouping(ms: seq<Message>, threads: map<string, seq<Message>>) {
    threads.Keys == Keys(ms) &&
    forall k :: k in threads ==> threads[k] == InThread(ms, k)
  }

  method GroupMessagesByThread(messages: seq<Message>) returns (threads: map<string, seq<Message>>)
    ensures IsGrouping(messages, threads)
  {
    threads := map[];
    var i := 0;
    while i < |messages|
      invariant 0 <= i <= |messages|
      invariant IsGrouping(messages[..i], threads)
    {
      var message := messages[i];
      var threadId := ThreadKey(message);
      ghost var before := threads;
      if threadId !in threads {
        threads := threads[threadId := []];
      }
      GroupingStep(messages, i, before, threads);
      threads := threads[threadId := threads[threadId] + [message]];
      i := i + 1;
    }
    assert messages[..i] == messages;
  }

  /** Reading one more message extends the thread of its key and no other. */
  lemma InThreadSnoc(ms: seq<Message>, x: Message, k: string)
    ensures InThread(ms + [x], k) == if ThreadKey(x) == k then InThread(ms, k) + [x] else InThread(ms, k)
  {
    assert (ms + [x])[..|ms|] == ms;
  }

  lemma KeysSnoc(ms: seq<Message>, x: Message)
    ensures Keys(ms + [x]) == Keys(ms) + {ThreadKey(x)}
  {
    forall m | m in ms + [x] ensures m in ms || m == x { }
  }

  /** One step of the reduce, creating the key's array if missing and pushing onto it,
      keeps the accumulator a grouping of the prefix read so far. */
  lemma GroupingStep(all: seq<Message>, i: int, threads: map<string, seq<Message>>, acc: map<string, seq<Message>>)
    requires 0 <= i < |all| && IsGrouping(all[..i], threads)
    requires acc == if ThreadKey(all[i]) in threads then threads else threads[ThreadKey(all[i]) := []]
    ensures ThreadKey(all[i]) in acc
    ensures IsGrouping(all[..i + 1], acc[ThreadKey(all[i]) := acc[ThreadKey(all[i])] + [all[i]]])
  {
    var ms, x := all[..i], all[i];
    var k := ThreadKey(x);
    assert all[..i + 1] == ms + [x];
    var r := acc[k := acc[k] + [x]];
    KeysSnoc(ms, x);
    assert r.Keys == Keys(ms + [x]);
    forall k' | k' in r ensures r[k'] == InThread(ms + [x], k') {
      InThreadSnoc(ms, x, k');
      if k' == k && k !in threads {
        InThreadEmptyIfAbsent(ms, k);
      }
    }
  }

  /** No thread is empty. */
  lemma {:induction false} ThreadsNonEmpty(ms: seq<Message>, k: string)
    requires k in Keys(ms)
    ensures |InThread(ms, k)| > 0
  {
    var last := ms[|ms| - 1];
    if ThreadKey(last) != k {
      var m :| m in ms && ThreadKey(m) == k;
      assert m in ms[..|ms| - 1] by {
        assert ms == ms[..|ms| - 1] + [last];
      }
      ThreadsNonEmpty(ms[..|ms| - 1], k);
    }
  }

  /** Each message lands in the thread of its key, and in no other thread. */
  lemma {:induction false} MessageInItsThread(ms: seq<Message>, i: nat)
    requires i < |ms|
    ensures ms[i] in InThread(ms, ThreadKey(ms[i]))
  {
    if i < |ms| - 1 {
      MessageInItsThread(ms[..|ms| - 1], i);
    }
  }

  /** Every thread is a subsequence of the input: order within a thread is input order. */
  lemma {:induction false} ThreadPreservesOrder(ms: seq<Message>, k: string)
    ensures IsSubsequence(InThread(ms, k), ms)
  {
    if ms != [] {
      var init := ms[..|ms| - 1];
      ThreadPreservesOrder(init, k);
      var t := InThread(init, k);
      if ThreadKey(ms[|ms| - 1]) == k {
        assert (t + [ms[|ms| - 1]])[..|t|] == t;
      } else if t != [] {
        assert t[|t| - 1] in t;
      }
    }
  }

  /** Group sizes sum to the input length: the threads partition the messages. */
  function SizeSum(ms: seq<Message>, ks: seq<string>): nat {
    if ks == [] then 0 else |InThread(ms, ks[0])| + SizeSum(ms, ks[1..])
  }

  lemma {:induction false} GroupSizesSumToLength(ms: seq<Message>)
    ensures SizeSum(ms, KeysInOrder(ms)) == |ms|
  {
    if ms != [] {
      var init := ms[..|ms| - 1];
      var k := ThreadKey(ms[|ms| - 1]);
      var ks := KeysInOrder(init);
      GroupSizesSumToLength(init);
      KeysInOrderDistinct(init);
      if k in ks {
        SizeSumStep(ms, ks, k);
      } else {
        SizeSumStep(ms, ks, k);
        SizeSumAppend(ms, ks, k);
        InThreadAbsent(init, k, ks);
      }
    }
  }

  lemma {:induction false} KeysInOrderDistinct(ms: seq<Message>)
    ensures forall i, j :: 0 <= i < j < |KeysInOrder(ms)| ==> KeysInOrder(ms)[i] != KeysInOrder(ms)[j]
    ensures forall k :: k in KeysInOrder(ms) <==> k in Keys(ms)
  {
    if ms != [] {
      var init := ms[..|ms| - 1];
      KeysInOrderDistinct(init);
      assert ms == init + [ms[|ms| - 1]];
    }
  }

  /** Adding the last message grows the thread of its key by one and no other. */
  lemma SizeSumStep(ms: seq<Message>, ks: seq<string>, k: string)
    requires ms != [] && k == ThreadKey(ms[|ms| - 1])
    requires forall i, j :: 0 <= i < j < |ks| ==> ks[i] != ks[j]
    ensures SizeSum(ms, ks) == SizeSum(ms[..|ms| - 1], ks) + (if k in ks then 1 else 0)
    decreases |ks|
  {
    if ks != [] {
      assert forall i, j :: 0 <= i < j < |ks[1..]| ==> ks[1..][i] != ks[1..][j] by {
        forall i, j | 0 <= i < j < |ks[1..]| ensures ks[1..][i] != ks[1..][j] {
          assert ks[1..][i] == ks[i + 1] && ks[1..][j] == ks[j + 1];
        }
      }
      SizeSumStep(ms, ks[1..], k);
      assert k in ks <==> k == ks[0] || k in ks[1..];
      assert k == ks[0] ==> k !in ks[1..];
    }
  }

  lemma {:induction false} SizeSumAppend(ms: seq<Message>, ks: seq<string>, k: string)
    ensures SizeSum(ms, ks + [k]) == SizeSum(ms, ks) + |InThread(ms, k)|
    decreases |ks|
  {
    if ks == [] {
      assert [k][1..] == [];
    } else {
      assert (ks + [k])[1..] == ks[1..] + [k];
      SizeSumAppend(ms, ks[1..], k);
    }
  }

  /** A key that has not appeared yet has an empty thread so far. */
  lemma InThreadAbsent(ms: seq<Message>, k: string, ks: seq<string>)
    requires ks == KeysInOrder(ms) && k !in ks
    requires forall k' :: k' in KeysInOrder(ms) <==> k' in Keys(ms)
    ensures InThread(ms, k) == []
  {
    InThreadEmptyIfAbsent(ms, k);
  }

  lemma InThreadEmptyIfAbsent(ms: seq<Message>, k: string)
    requires k !in Keys(ms)
    ensures InThread(ms, k) == []
  {
    if InThread(ms, k) != [] {
      assert InThread(ms, k)[0] in InThread(ms, k);
    }
  }
}
