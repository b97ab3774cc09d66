/**
 * Live-session deduplication: the processed list, `is_processed`, and the run
 * loop that notifies each live session not yet processed and appends it.
 *
 * The run is specified by `NewSessions`, an order-preserving filter of the
 * candidates by `Fresh`: a candidate is new when it is live and its start
 * time is neither in the processed list nor the start time of an earlier
 * live candidate.
 */
module Dedup {

  /** One entry of the followed-streams response's `data` list. */
  datatype Stream = Stream(userLogin: string, kind: string, startedAt: string)

  /** One entry of the processed list: `{user_name, started_at}`. */
  datatype Post = Post(userName: string, startedAt: string)

  /** `is_processed`: some entry has the candidate's start time; the channel is not compared. */
  function IsProcessed(u: Stream, posts: seq<Post>): (r: bool)
    ensures r <==> exists i :: 0 <= i < |posts| && posts[i].startedAt == u.startedAt
  {
    if posts == [] then false
    else posts[0].startedAt == u.startedAt || IsProcessed(u, posts[1..])
  }

  /** The item the run appends for a notified candidate. */
  function ItemOf(u: Stream): Post
  {
    Post(u.userLogin, u.startedAt)
  }

  /** The items for a sequence of notified candidates, in the same order. */
  function Items(us: seq<Stream>): (r: seq<Post>)
    ensures |r| == |us|
    ensures forall k :: 0 <= k < |us| ==> r[k] == ItemOf(us[k])
  {
    if us == [] then [] else [ItemOf(us[0])] + Items(us[1..])
  }

  /** The start times recorded in a processed list. */
  function StartTimes(posts: seq<Post>): set<string>
  {
    set p | p in posts :: p.startedAt
  }

  /** The start times of the live candidates in a sequence. */
  function LiveStartTimes(us: seq<Stream>): set<string>
  {
    set u | u in us && u.kind == "live" :: u.startedAt
  }

  /** Candidate `i` is new: live, not processed before the run, not an earlier live candidate's session. */
  predicate Fresh(data: seq<Stream>, processed: seq<Post>, i: nat)
    requires i < |data|
  {
    && data[i].kind == "live"
    && data[i].startedAt !in StartTimes(processed)
    && data[i].startedAt !in LiveStartTimes(data[..i])
  }

  /** The new candidates among the first `n`, in input order. */
  function NewSessions(data: seq<Stream>, processed: seq<Post>, n: nat): seq<Stream>
    requires n <= |data|
  {
    if n == 0 then []
    else NewSessions(data, processed, n - 1) + (if Fresh(data, processed, n - 1) then [data[n - 1]] else [])
  }

  /** The positions of the new candidates among the first `n`. */
  function FreshIndices(data: seq<Stream>, processed: seq<Post>, n: nat): seq<nat>
    requires n <= |data|
  {
    if n == 0 then []
    else FreshIndices(data, processed, n - 1) + (if Fresh(data, processed, n - 1) then [n - 1] else [])
  }

  /**
   * The run loop: skip candidates that are not live, notify and append each
   * one `is_processed` does not find in the list as it stands (items appended
   * earlier in the run included), count the notifications in `p`, and write
   * the list back only when `p > 0`. An empty `data` exits before the loop.
   * `pushed` lists the candidates handed to `telegram_push`, in order.
   */
  method RunCycle(data: seq<Stream>, processed: seq<Post>)
    returns (result: seq<Post>, pushed: seq<Stream>, p: nat, written: bool)
    ensures pushed == NewSessions(data, processed, |data|)
    ensures result == processed + Items(pushed)
    ensures p == |pushed| && |result| == |processed| + p
    ensures written <==> p > 0
    ensures data == [] ==> result == processed && p == 0 && !written
  {
    result, pushed, p, written := processed, [], 0, false;
    if |data| < 1 {
      return;
    }
    for i := 0 to |data|
      invariant pushed == NewSessions(data, processed, i)
      invariant result == processed + Items(pushed)
      invariant p == |pushed|
    {
      var u := data[i];
      if u.kind != "live" {
        continue;
      }
      FreshIffUnseen(data, processed, i);
      if !IsProcessed(u, result) {
        pushed := pushed + [u];
        result := result + [ItemOf(u)];
        p := p + 1;
        assert Items(pushed) == Items(pushed[..|pushed| - 1]) + [ItemOf(u)];
      }
    }
    written := p > 0;
  }

  lemma StartTimesAppend(a: seq<Post>, b: seq<Post>)
    ensures StartTimes(a + b) == StartTimes(a) + StartTimes(b)
  {
    forall x | x in StartTimes(a + b) ensures x in StartTimes(a) + StartTimes(b) {
      var q :| q in a + b && q.startedAt == x;
      if q in a { assert x in StartTimes(a); } else { assert x in StartTimes(b); }
    }
    forall x | x in StartTimes(a) + StartTimes(b) ensures x in StartTimes(a + b) {
      if x in StartTimes(a) {
        var q :| q in a && q.startedAt == x;
        assert q in a + b;
      } else {
        var q :| q in b && q.startedAt == x;
        assert q in a + b;
      }
    }
  }

  lemma LiveStartTimesSnoc(us: seq<Stream>, u: Stream)
    ensures LiveStartTimes(us + [u]) == LiveStartTimes(us) + (if u.kind == "live" then {u.startedAt} else {})
  {
    forall x | x in LiveStartTimes(us + [u])
      ensures x in LiveStartTimes(us) + (if u.kind == "live" then {u.startedAt} else {})
    {
      var v :| v in us + [u] && v.kind == "live" && v.startedAt == x;
      if v in us { assert x in LiveStartTimes(us); }
    }
    forall x | x in LiveStartTimes(us) ensures x in LiveStartTimes(us + [u]) {
      var v :| v in us && v.kind == "live" && v.startedAt == x;
      assert v in us + [u];
    }
    if u.kind == "live" {
      assert u in us + [u];
    }
  }

  lemma StartTimesHas(posts: seq<Post>, x: string)
    ensures x in StartTimes(posts) <==> exists i :: 0 <= i < |posts| && posts[i].startedAt == x
  {
    if x in StartTimes(posts) {
      var q :| q in posts && q.startedAt == x;
      var i :| 0 <= i < |posts| && posts[i] == q;
    }
    if exists i :: 0 <= i < |posts| && posts[i].startedAt == x {
      var i :| 0 <= i < |posts| && posts[i].startedAt == x;
      assert posts[i] in posts;
    }
  }

  lemma StartTimesSnoc(posts: seq<Post>, q: Post)
    ensures StartTimes(posts + [q]) == StartTimes(posts) + {q.startedAt}
  {
    StartTimesAppend(posts, [q]);
    assert q in [q];
  }

  /** Appending one notified candidate's item adds exactly its start time. */
  lemma AppendedStartTimes(processed: seq<Post>, prev: seq<Stream>, u: Stream)
    ensures StartTimes(processed + Items(prev + [u])) == StartTimes(processed + Items(prev)) + {u.startedAt}
  {
    assert Items(prev + [u]) == Items(prev) + [ItemOf(u)];
    assert processed + Items(prev + [u]) == (processed + Items(prev)) + [ItemOf(u)];
    StartTimesSnoc(processed + Items(prev), ItemOf(u));
  }

  /** The live start times of the first `n` candidates, one candidate at a time. */
  lemma LiveStartTimesPrefix(data: seq<Stream>, n: nat)
    requires 0 < n <= |data|
    ensures LiveStartTimes(data[..n])
         == LiveStartTimes(data[..n - 1]) + (if data[n - 1].kind == "live" then {data[n - 1].startedAt} else {})
  {
    assert data[..n] == data[..n - 1] + [data[n - 1]];
    LiveStartTimesSnoc(data[..n - 1], data[n - 1]);
  }

  /**
   * One step of the recorded start times, as set algebra: the list gains
   * `added` exactly when the live start times seen so far gain it, or it
   * gains a start time already recorded.
   */
  lemma UnionStep(total: set<string>, prevTotal: set<string>, before: set<string>, seen: set<string>,
                  seenNow: set<string>, added: set<string>)
    requires prevTotal == before + seen && seenNow == seen + added
    requires total == prevTotal + added
    ensures total == before + seenNow
  {
  }

  /**
   * After the first `n` candidates the list holds exactly the start times it
   * held before the run plus those of the live candidates seen so far.
   */
  lemma {:induction false} RecordedStartTimes(data: seq<Stream>, processed: seq<Post>, n: nat)
    requires n <= |data|
    ensures StartTimes(processed + Items(NewSessions(data, processed, n)))
         == StartTimes(processed) + LiveStartTimes(data[..n])
  {
    if n == 0 {
      assert processed + Items([]) == processed;
      assert LiveStartTimes(data[..0]) == {};
    } else {
      RecordedStartTimes(data, processed, n - 1);
      RecordedStep(data, processed, n);
    }
  }

  /** The inductive step of `RecordedStartTimes`: candidate `n - 1` keeps the equation. */
  lemma RecordedStep(data: seq<Stream>, processed: seq<Post>, n: nat)
    requires 0 < n <= |data|
    requires StartTimes(processed + Items(NewSessions(data, processed, n - 1)))
          == StartTimes(processed) + LiveStartTimes(data[..n - 1])
    ensures StartTimes(processed + Items(NewSessions(data, processed, n)))
         == StartTimes(processed) + LiveStartTimes(data[..n])
  {
    var prev := NewSessions(data, processed, n - 1);
    var u := data[n - 1];
    var added: set<string> := if u.kind == "live" then {u.startedAt} else {};
    LiveStartTimesPrefix(data, n);
    if Fresh(data, processed, n - 1) {
      assert NewSessions(data, processed, n) == prev + [u];
      AppendedStartTimes(processed, prev, u);
    } else {
      assert NewSessions(data, processed, n) == prev;
      AlreadyRecorded(StartTimes(processed + Items(prev)), added);
    }
    UnionStep(StartTimes(processed + Items(NewSessions(data, processed, n))),
              StartTimes(processed + Items(prev)), StartTimes(processed),
              LiveStartTimes(data[..n - 1]), LiveStartTimes(data[..n]), added);
  }

  /** Adding start times already recorded changes nothing. */
  lemma AlreadyRecorded(recorded: set<string>, added: set<string>)
    requires added <= recorded
    ensures recorded == recorded + added
  {
  }

  /**
   * The loop's test: a live candidate is new exactly when `is_processed` does
   * not find its start time in the list as it stands when the loop reaches
   * it, which includes the items appended earlier in the same run.
   */
  lemma FreshIffUnseen(data: seq<Stream>, processed: seq<Post>, i: nat)
    requires i < |data|
    ensures Fresh(data, processed, i)
        <==> data[i].kind == "live" && !IsProcessed(data[i], processed + Items(NewSessions(data, processed, i)))
  {
    RecordedStartTimes(data, processed, i);
    StartTimesHas(processed + Items(NewSessions(data, processed, i)), data[i].startedAt);
  }

  /**
   * The new candidates are exactly the fresh positions, in increasing order:
   * non-live candidates never appear, and every fresh one does.
   */
  lemma {:induction false} NewSessionsInOrder(data: seq<Stream>, processed: seq<Post>, n: nat)
    requires n <= |data|
    ensures var s, idx := NewSessions(data, processed, n), FreshIndices(data, processed, n);
      && |s| == |idx|
      && (forall j :: 0 <= j < |idx| ==> idx[j] < n && s[j] == data[idx[j]] && Fresh(data, processed, idx[j]))
      && (forall j, k :: 0 <= j < k < |idx| ==> idx[j] < idx[k])
      && (forall i :: 0 <= i < n && Fresh(data, processed, i) ==> i in idx)
  {
    if n > 0 {
      NewSessionsInOrder(data, processed, n - 1);
      InOrderStep(data, processed, n);
    }
  }

  /** The inductive step of `NewSessionsInOrder`: candidate `n - 1` is appended to both or to neither. */
  lemma InOrderStep(data: seq<Stream>, processed: seq<Post>, n: nat)
    requires 0 < n <= |data|
    requires var s, idx := NewSessions(data, processed, n - 1), FreshIndices(data, processed, n - 1);
      && |s| == |idx|
      && (forall j :: 0 <= j < |idx| ==> idx[j] < n - 1 && s[j] == data[idx[j]] && Fresh(data, processed, idx[j]))
      && (forall j, k :: 0 <= j < k < |idx| ==> idx[j] < idx[k])
      && (forall i :: 0 <= i < n - 1 && Fresh(data, processed, i) ==> i in idx)
    ensures var s, idx := NewSessions(data, processed, n), FreshIndices(data, processed, n);
      && |s| == |idx|
      && (forall j :: 0 <= j < |idx| ==> idx[j] < n && s[j] == data[idx[j]] && Fresh(data, processed, idx[j]))
      && (forall j, k :: 0 <= j < k < |idx| ==> idx[j] < idx[k])
      && (forall i :: 0 <= i < n && Fresh(data, processed, i) ==> i in idx)
  {
    var s0, idx0 := NewSessions(data, processed, n - 1), FreshIndices(data, processed, n - 1);
    var s, idx := NewSessions(data, processed, n), FreshIndices(data, processed, n);
    if Fresh(data, processed, n - 1) {
      assert s == s0 + [data[n - 1]] && idx == idx0 + [n - 1];
      forall j | 0 <= j < |idx|
        ensures idx[j] < n && s[j] == data[idx[j]] && Fresh(data, processed, idx[j])
      {
        if j < |idx0| {
          assert idx[j] == idx0[j] && s[j] == s0[j];
        }
      }
      forall i | 0 <= i < n && Fresh(data, processed, i) ensures i in idx {
        if i < n - 1 {
          assert i in idx0;
        }
      }
    } else {
      assert s == s0 && idx == idx0;
      forall i | 0 <= i < n && Fresh(data, processed, i) ensures i in idx {
        assert i < n - 1;
      }
    }
  }

  /**
   * Everything a run appends is live, was not processed before the run, and
   * has a start time no other appended item has.
   */
  lemma NewSessionsDistinct(data: seq<Stream>, processed: seq<Post>)
    ensures var s := NewSessions(data, processed, |data|);
      && (forall j :: 0 <= j < |s| ==> s[j].kind == "live" && !IsProcessed(s[j], processed))
      && (forall j, k :: 0 <= j < k < |s| ==> s[j].startedAt != s[k].startedAt)
  {
    var s, idx := NewSessions(data, processed, |data|), FreshIndices(data, processed, |data|);
    NewSessionsInOrder(data, processed, |data|);
    forall j | 0 <= j < |s| ensures s[j].kind == "live" && !IsProcessed(s[j], processed) {
      StartTimesHas(processed, s[j].startedAt);
    }
    forall j, k | 0 <= j < k < |s| ensures s[j].startedAt != s[k].startedAt {
      var a, b := idx[j], idx[k];
      assert a < b;
      assert data[..b][a] == data[a];
      assert data[a] in data[..b];
      assert data[a].startedAt in LiveStartTimes(data[..b]);
    }
  }

  /** After a run, every live candidate's start time is in the list. */
  lemma EveryLiveSessionRecorded(data: seq<Stream>, processed: seq<Post>)
    ensures var result := processed + Items(NewSessions(data, processed, |data|));
      forall i :: 0 <= i < |data| && data[i].kind == "live" ==> IsProcessed(data[i], result)
  {
    var result := processed + Items(NewSessions(data, processed, |data|));
    RecordedStartTimes(data, processed, |data|);
    assert data[..|data|] == data;
    forall i | 0 <= i < |data| && data[i].kind == "live" ensures IsProcessed(data[i], result) {
      assert data[i] in data;
      assert data[i].startedAt in LiveStartTimes(data);
      StartTimesHas(result, data[i].startedAt);
    }
  }

  /** A second run over the same candidates, with the list the first left, notifies nobody. */
  lemma RerunNotifiesNobody(data: seq<Stream>, processed: seq<Post>)
    ensures var result := processed + Items(NewSessions(data, processed, |data|));
      NewSessions(data, result, |data|) == []
  {
    var result := processed + Items(NewSessions(data, processed, |data|));
    EveryLiveSessionRecorded(data, processed);
    NothingFreshIsEmpty(data, result, |data|);
  }

  lemma {:induction false} NothingFreshIsEmpty(data: seq<Stream>, processed: seq<Post>, n: nat)
    requires n <= |data|
    requires forall i :: 0 <= i < |data| && data[i].kind == "live" ==> IsProcessed(data[i], processed)
    ensures NewSessions(data, processed, n) == []
  {
    if n > 0 {
      NothingFreshIsEmpty(data, processed, n - 1);
      if data[n - 1].kind == "live" {
        StartTimesHas(processed, data[n - 1].startedAt);
      }
    }
  }

  /**
   * One channel already notified for its session and another newly live:
   * only the second is notified, and the list ends up holding both.
   */
  lemma ExampleCycle()
    ensures var processed := [Post("chanA", "2024-01-01T00:00:00Z")];
      var data := [Stream("chanA", "live", "2024-01-01T00:00:00Z"), Stream("chanB", "live", "2024-01-02T00:00:00Z")];
      var s := NewSessions(data, processed, |data|);
      && s == [data[1]]
      && processed + Items(s) == [Post("chanA", "2024-01-01T00:00:00Z"), Post("chanB", "2024-01-02T00:00:00Z")]
  {
    var processed := [Post("chanA", "2024-01-01T00:00:00Z")];
    var data := [Stream("chanA", "live", "2024-01-01T00:00:00Z"), Stream("chanB", "live", "2024-01-02T00:00:00Z")];
    StartTimesHas(processed, data[0].startedAt);
    StartTimesHas(processed, data[1].startedAt);
    assert data[..1] == [data[0]];
    assert LiveStartTimes(data[..1]) == {data[0].startedAt} by {
      assert data[0] in data[..1];
    }
    assert Fresh(data, processed, 1);
  }
}
