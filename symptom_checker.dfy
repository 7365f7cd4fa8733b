/** The symptom checker of src/components/SymptomChecker.tsx: the send
    handler, the text accumulated from the answer stream, and the grounding
    sources merged chunk by chunk through a `Map` keyed by URI. */
module SymptomChecker {
  import opened Types
  import opened Text
  import opened ChatStream

  /** No two entries share a URI. */
  predicate DistinctUris(l: seq<Source>) {
    forall i, j :: 0 <= i < j < |l| ==> l[i].uri != l[j].uri
  }

  /** The position of the first entry with this URI, or `|l|` when there is
      none. */
  function IndexOfUri(l: seq<Source>, uri: string): (k: nat)
    ensures k <= |l|
    ensures k < |l| ==> l[k].uri == uri
    ensures forall i :: 0 <= i < k ==> l[i].uri != uri
  {
    if l == [] then 0
    else if l[0].uri == uri then 0
    else 1 + IndexOfUri(l[1..], uri)
  }

  /** Looking a URI up in a longer list finds it in the first part when it
      is there, and otherwise after it. */
  lemma {:induction false} IndexOfUriAppend(a: seq<Source>, b: seq<Source>, uri: string)
    ensures IndexOfUri(a + b, uri) ==
      if IndexOfUri(a, uri) < |a| then IndexOfUri(a, uri) else |a| + IndexOfUri(b, uri)
  {
    if a != [] {
      assert (a + b)[0] == a[0];
      if a[0].uri != uri {
        assert (a + b)[1..] == a[1..] + b;
        IndexOfUriAppend(a[1..], b, uri);
      }
    } else {
      assert a + b == b;
    }
  }

  /** `map.set(s.uri, s)` on a `Map` whose values, in insertion order, are
      `l`: an existing URI keeps its place and takes the new entry, a new URI
      goes last. */
  function Insert(l: seq<Source>, s: Source): (r: seq<Source>)
    ensures |l| <= |r| <= |l| + 1
    ensures forall i :: 0 <= i < |l| ==> r[i].uri == l[i].uri
    ensures forall i :: 0 <= i < |l| && l[i].uri != s.uri ==> r[i] == l[i]
    ensures s in r
    ensures forall x :: x in r ==> x in l || x == s
    ensures |r| == |l| + 1 <==> forall i :: 0 <= i < |l| ==> l[i].uri != s.uri
    ensures |r| == |l| + 1 ==> r[|l|] == s
  {
    var k := IndexOfUri(l, s.uri);
    if k < |l| then l[k := s] else l + [s]
  }

  /** Setting every entry of `list` in turn. */
  function InsertAll(l: seq<Source>, list: seq<Source>): seq<Source>
    decreases |list|
  {
    if list == [] then l else InsertAll(Insert(l, list[0]), list[1..])
  }

  /** `Array.from(new Map(list.map(s => [s.uri, s])).values())`. */
  function Dedup(list: seq<Source>): seq<Source> {
    InsertAll([], list)
  }

  /** Setting one more entry at the end. */
  lemma {:induction false} InsertAllSnoc(l: seq<Source>, list: seq<Source>, x: Source)
    ensures InsertAll(l, list + [x]) == Insert(InsertAll(l, list), x)
    decreases |list|
  {
    if list == [] {
      assert list + [x] == [x];
      assert [x][1..] == [];
    } else {
      assert (list + [x])[0] == list[0];
      assert (list + [x])[1..] == list[1..] + [x];
      InsertAllSnoc(Insert(l, list[0]), list[1..], x);
    }
  }

  /** Setting the entries of `a + b` is setting those of `a`, then of `b`. */
  lemma {:induction false} InsertAllAppend(l: seq<Source>, a: seq<Source>, b: seq<Source>)
    ensures InsertAll(l, a + b) == InsertAll(InsertAll(l, a), b)
    decreases |a|
  {
    if a == [] {
      assert a + b == b;
    } else {
      assert (a + b)[0] == a[0];
      assert (a + b)[1..] == a[1..] + b;
      InsertAllAppend(Insert(l, a[0]), a[1..], b);
    }
  }

  /** Setting entries never creates a second entry for a URI. */
  lemma {:induction false} InsertAllDistinct(l: seq<Source>, list: seq<Source>)
    requires DistinctUris(l)
    ensures DistinctUris(InsertAll(l, list))
    decreases |list|
  {
    if list != [] {
      var r := Insert(l, list[0]);
      assert DistinctUris(r);
      InsertAllDistinct(r, list[1..]);
    }
  }

  /** Entries whose URIs are all new and distinct are appended in order. */
  lemma {:induction false} InsertAllFresh(l: seq<Source>, list: seq<Source>)
    requires DistinctUris(l + list)
    ensures InsertAll(l, list) == l + list
    decreases |list|
  {
    if list != [] {
      assert forall i :: 0 <= i < |l| ==> l[i].uri != list[0].uri by {
        forall i | 0 <= i < |l| ensures l[i].uri != list[0].uri {
          assert (l + list)[i] == l[i] && (l + list)[|l|] == list[0];
        }
      }
      assert Insert(l, list[0]) == l + [list[0]];
      assert (l + [list[0]]) + list[1..] == l + list;
      InsertAllFresh(l + [list[0]], list[1..]);
    }
  }

  /** The de-duplicated list has pairwise distinct URIs. */
  lemma DedupDistinct(list: seq<Source>)
    ensures DistinctUris(Dedup(list))
  {
    InsertAllDistinct([], list);
  }

  /** Merging new entries into an already de-duplicated list gives the same
      result as de-duplicating everything received. */
  lemma DedupMerge(a: seq<Source>, b: seq<Source>)
    ensures Dedup(Dedup(a) + b) == Dedup(a + b)
  {
    DedupDistinct(a);
    assert [] + Dedup(a) == Dedup(a);
    InsertAllFresh([], Dedup(a));
    InsertAllAppend([], Dedup(a), b);
    InsertAllAppend([], a, b);
  }

  /** Every URI received stays present, and every entry kept was received. */
  lemma {:induction false} DedupKeepsEveryUri(list: seq<Source>)
    ensures forall s :: s in list ==> IndexOfUri(Dedup(list), s.uri) < |Dedup(list)|
    ensures forall x :: x in Dedup(list) ==> x in list
    decreases |list|
  {
    if list != [] {
      var front, x := list[..|list| - 1], list[|list| - 1];
      assert list == front + [x];
      InsertAllSnoc([], front, x);
      DedupKeepsEveryUri(front);
      var r', r := Dedup(front), Dedup(list);
      forall s | s in list ensures IndexOfUri(r, s.uri) < |r| {
        if s in front {
          var k := IndexOfUri(r', s.uri);
          assert r[k].uri == s.uri;
        } else {
          assert s == x;
        }
      }
    }
  }

  /** Each URI holds its most recent entry: an entry that no later entry
      overrides is kept. */
  lemma {:induction false} DedupKeepsLatest(list: seq<Source>)
    ensures forall k :: 0 <= k < |list| && (forall j :: k < j < |list| ==> list[j].uri != list[k].uri) ==>
      list[k] in Dedup(list)
    decreases |list|
  {
    if list != [] {
      var front, x := list[..|list| - 1], list[|list| - 1];
      assert list == front + [x];
      InsertAllSnoc([], front, x);
      DedupKeepsLatest(front);
      var r', r := Dedup(front), Dedup(list);
      forall k | 0 <= k < |list| && (forall j :: k < j < |list| ==> list[j].uri != list[k].uri)
        ensures list[k] in r
      {
        if k < |front| {
          assert front[k] == list[k];
          assert forall j :: k < j < |front| ==> front[j].uri != front[k].uri by {
            forall j | k < j < |front| ensures front[j].uri != front[k].uri {
              assert front[j] == list[j];
            }
          }
          assert list[k].uri != x.uri;
          var i :| 0 <= i < |r'| && r'[i] == list[k];
          assert r[i] == r'[i];
        }
      }
    }
  }

  /** Entries of `r'`, the URIs of `front`, are found in `front + [x]`
      where they are found in `front`. */
  lemma KeptPositions(front: seq<Source>, x: Source, r': seq<Source>)
    requires forall y :: y in r' ==> y in front
    ensures forall i :: 0 <= i < |r'| ==>
      IndexOfUri(front + [x], r'[i].uri) == IndexOfUri(front, r'[i].uri) < |front|
  {
    forall i | 0 <= i < |r'| ensures IndexOfUri(front + [x], r'[i].uri) == IndexOfUri(front, r'[i].uri) < |front| {
      assert r'[i] in front;
      IndexOfUriAppend(front, [x], r'[i].uri);
    }
  }

  /** A URI that none of the entries of `r'`, which covers `front`, carries
      is first seen at the end of `front + [x]`. */
  lemma NewPosition(front: seq<Source>, x: Source, r': seq<Source>)
    requires forall s :: s in front ==> IndexOfUri(r', s.uri) < |r'|
    requires forall i :: 0 <= i < |r'| ==> r'[i].uri != x.uri
    ensures IndexOfUri(front + [x], x.uri) == |front|
  {
    forall k | 0 <= k < |front| ensures front[k].uri != x.uri {
      assert front[k] in front;
    }
    IndexOfUriAppend(front, [x], x.uri);
  }

  /** Setting `x` into `r'` (giving `r`, which keeps the URIs of `r'` and
      appends `x` only when its URI is new) keeps the entries in first-seen
      order, given that `r'` holds exactly the URIs of `front` in that
      order. */
  lemma FirstSeenOrderStep(front: seq<Source>, x: Source, r': seq<Source>, r: seq<Source>)
    requires forall s :: s in front ==> IndexOfUri(r', s.uri) < |r'|
    requires forall y :: y in r' ==> y in front
    requires forall i, j :: 0 <= i < j < |r'| ==> IndexOfUri(front, r'[i].uri) < IndexOfUri(front, r'[j].uri)
    requires |r'| <= |r| <= |r'| + 1
    requires forall i :: 0 <= i < |r'| ==> r[i].uri == r'[i].uri
    requires |r| == |r'| + 1 ==> r[|r'|] == x && forall i :: 0 <= i < |r'| ==> r'[i].uri != x.uri
    ensures forall i, j :: 0 <= i < j < |r| ==> IndexOfUri(front + [x], r[i].uri) < IndexOfUri(front + [x], r[j].uri)
  {
    var list := front + [x];
    KeptPositions(front, x, r');
    if |r| == |r'| + 1 {
      NewPosition(front, x, r');
    }
    forall i, j | 0 <= i < j < |r|
      ensures IndexOfUri(list, r[i].uri) < IndexOfUri(list, r[j].uri)
    {
      var u := r'[i].uri;
      assert r[i].uri == u;
      assert IndexOfUri(list, u) == IndexOfUri(front, u) < |front|;
      if j < |r'| {
        var v := r'[j].uri;
        assert r[j].uri == v;
        assert IndexOfUri(list, v) == IndexOfUri(front, v);
        assert IndexOfUri(front, u) < IndexOfUri(front, v);
      } else {
        assert r[j].uri == x.uri;
      }
    }
  }

  /** URIs keep the order in which they were first received. */
  lemma {:induction false} DedupFirstSeenOrder(list: seq<Source>)
    ensures forall i, j :: 0 <= i < j < |Dedup(list)| ==>
      IndexOfUri(list, Dedup(list)[i].uri) < IndexOfUri(list, Dedup(list)[j].uri)
    decreases |list|
  {
    if list != [] {
      var front, x := list[..|list| - 1], list[|list| - 1];
      assert list == front + [x];
      InsertAllSnoc([], front, x);
      DedupFirstSeenOrder(front);
      DedupKeepsEveryUri(front);
      FirstSeenOrderStep(front, x, Dedup(front), Dedup(list));
    }
  }

  /** `allSources` after the first `n` updates: each update that carries a
      list merges it in. */
  function SourcesAfter(updates: seq<StreamUpdate>, n: nat): seq<Source>
    requires n <= |updates|
  {
    if n == 0 then []
    else if updates[n - 1].sources.Some? then Dedup(SourcesAfter(updates, n - 1) + updates[n - 1].sources.value)
    else SourcesAfter(updates, n - 1)
  }

  /** Every source received in the first `n` updates, in order. */
  function Received(updates: seq<StreamUpdate>, n: nat): seq<Source>
    requires n <= |updates|
  {
    if n == 0 then []
    else Received(updates, n - 1) + (if updates[n - 1].sources.Some? then updates[n - 1].sources.value else [])
  }

  /** Merging chunk by chunk is de-duplicating everything received so far,
      so the distinctness, presence, latest-entry and first-seen-order
      lemmas above hold after every chunk. */
  lemma {:induction false} SourcesAfterIsDedup(updates: seq<StreamUpdate>, n: nat)
    requires n <= |updates|
    ensures SourcesAfter(updates, n) == Dedup(Received(updates, n))
  {
    if n > 0 {
      SourcesAfterIsDedup(updates, n - 1);
      var before := Received(updates, n - 1);
      if updates[n - 1].sources.Some? {
        var v := updates[n - 1].sources.value;
        assert Received(updates, n) == before + v;
        assert SourcesAfter(updates, n) == Dedup(Dedup(before) + v);
        DedupMerge(before, v);
      } else {
        assert Received(updates, n) == before + [];
        assert before + [] == before;
      }
    }
  }

  /** `allSources.length > 0 ? allSources : undefined`. */
  function SourcesField(l: seq<Source>): Option<seq<Source>> {
    if |l| > 0 then Some(l) else None
  }

  /** The message carries no sources exactly while none has been received. */
  lemma NoSourcesUntilReceived(updates: seq<StreamUpdate>, n: nat)
    requires n <= |updates|
    ensures SourcesField(SourcesAfter(updates, n)).None? <==> Received(updates, n) == []
  {
    SourcesAfterIsDedup(updates, n);
    DedupKeepsEveryUri(Received(updates, n));
    if Received(updates, n) != [] {
      assert Received(updates, n)[0] in Received(updates, n);
    }
  }

  /** `prev.map(msg => msg.id === id ? { ...msg, text, isTyping: false, sources } : msg)`. */
  function SetAnswer(msgs: seq<ChatMessage>, id: int, text: string, sources: Option<seq<Source>>): (r: seq<ChatMessage>)
    ensures |r| == |msgs|
    ensures forall i :: 0 <= i < |msgs| && msgs[i].id != id ==> r[i] == msgs[i]
    ensures forall i :: 0 <= i < |msgs| && msgs[i].id == id ==>
      r[i] == ChatMessage(id, msgs[i].role, text, false, sources)
  {
    seq(|msgs|, i requires 0 <= i < |msgs| =>
      if msgs[i].id == id then msgs[i].(text := text, isTyping := false, sources := sources) else msgs[i])
  }

  /** A later rewrite of the same message replaces an earlier one. */
  lemma SetAnswerTwice(msgs: seq<ChatMessage>, id: int, a: string, b: string, sa: Option<seq<Source>>, sb: Option<seq<Source>>)
    ensures SetAnswer(SetAnswer(msgs, id, a, sa), id, b, sb) == SetAnswer(msgs, id, b, sb)
  {
  }

  /** The messages after the first `n` updates: each update rewrites the
      answer with everything accumulated so far. */
  function AnsweredAfter(msgs: seq<ChatMessage>, botId: int, updates: seq<StreamUpdate>, n: nat): seq<ChatMessage>
    requires n <= |updates|
  {
    if n == 0 then msgs
    else SetAnswer(msgs, botId, StreamText(updates, n), SourcesField(SourcesAfter(updates, n)))
  }

  const Greeting := "Hi, I'm the MediPulse AI Assistant. Describe your symptoms, and I'll help analyze them using our ML Kit-powered engine."

  class Checker {
    var messages: seq<ChatMessage>
    var inputText: string
    var isProcessing: bool
    /** The inputs sent to the remote chat, in order. */
    var remoteRequests: seq<string>

    constructor ()
      ensures messages == [ChatMessage(1, Model, Greeting, false, None)]
      ensures inputText == [] && !isProcessing && remoteRequests == []
    {
      messages := [ChatMessage(1, Model, Greeting, false, None)];
      inputText, isProcessing, remoteRequests := [], false, [];
    }

    /** The input field's `onChange`. */
    method InputChange(value: string)
      modifies this`inputText
      ensures inputText == value
    {
      inputText := value;
    }

    /** `handleSendMessage`, reading the clock as `now` for the user's
        message and as `later` for the placeholder, where the stream delivers
        `updates` before it ends or fails (a failure is only logged, so it
        leaves the messages as the last update put them). */
    method Send(now: int, later: int, updates: seq<StreamUpdate>)
      modifies this`messages, this`inputText, this`isProcessing, this`remoteRequests
      ensures Blank(old(inputText)) || old(isProcessing) ==>
        messages == old(messages) && inputText == old(inputText) && isProcessing == old(isProcessing)
        && remoteRequests == old(remoteRequests)
      ensures !Blank(old(inputText)) && !old(isProcessing) ==>
        && messages == AnsweredAfter(Posted(old(messages), now, later, old(inputText)), later + 1, updates, |updates|)
        && inputText == [] && !isProcessing
        && remoteRequests == old(remoteRequests) + [old(inputText)]
    {
      var current := inputText;
      var blank := TrimsToEmpty(current);
      if blank || isProcessing {
        return;
      }
      var sent := Posted(messages, now, later, current);
      inputText := [];
      remoteRequests := remoteRequests + [current];
      messages := AnswerStream(sent, later + 1, updates);
      isProcessing := false;
    }

    /** The `for await` loop over the stream. */
    method AnswerStream(m0: seq<ChatMessage>, botId: int, updates: seq<StreamUpdate>)
      returns (m: seq<ChatMessage>)
      ensures m == AnsweredAfter(m0, botId, updates, |updates|)
    {
      m := m0;
      var fullText: string := [];
      var allSources: seq<Source> := [];
      for k := 0 to |updates|
        invariant fullText == StreamText(updates, k)
        invariant allSources == SourcesAfter(updates, k)
        invariant m == AnsweredAfter(m0, botId, updates, k)
      {
        var chunk := updates[k];
        if chunk.text.Some? && chunk.text.value != [] {
          fullText := fullText + chunk.text.value;
        }
        if chunk.sources.Some? {
          allSources := Dedup(allSources + chunk.sources.value);
        }
        if k > 0 {
          SetAnswerTwice(m0, botId, StreamText(updates, k), fullText,
            SourcesField(SourcesAfter(updates, k)), SourcesField(allSources));
        }
        m := SetAnswer(m, botId, fullText, SourcesField(allSources));
      }
    }
  }
}
