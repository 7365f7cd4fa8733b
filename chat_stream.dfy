/** What the two chat screens (src/components/AiChat.tsx and
    src/components/SymptomChecker.tsx) share: posting the user's message with
    a typing placeholder for the answer, and the text accumulated from the
    answer stream. */
module ChatStream {
  import opened Types

  /** The list once the user's message (id: the clock `now` read for it)
      and the typing placeholder of the answer (id: one past the clock
      `later` read again for it) have been appended. */
  function Posted(msgs: seq<ChatMessage>, now: int, later: int, input: string): (r: seq<ChatMessage>)
    ensures |r| == |msgs| + 2 && r[..|msgs|] == msgs
    ensures r[|msgs|] == ChatMessage(now, User, input, false, None)
    ensures r[|msgs| + 1].role == Model && r[|msgs| + 1].id == later + 1
    ensures r[|msgs| + 1].isTyping && r[|msgs| + 1].text == [] && r[|msgs| + 1].sources.None?
    ensures now <= later ==> r[|msgs| + 1].id > r[|msgs|].id
  {
    msgs + [ChatMessage(now, User, input, false, None), ChatMessage(later + 1, Model, [], true, None)]
  }

  /** The text of a stream update that counts: `if (chunk.text)` skips both a
      missing and an empty text. */
  function ChunkText(u: StreamUpdate): string {
    if u.text.Some? then u.text.value else []
  }

  /** `fullText` after the first `n` updates. */
  function StreamText(updates: seq<StreamUpdate>, n: nat): string
    requires n <= |updates|
  {
    if n == 0 then [] else StreamText(updates, n - 1) + ChunkText(updates[n - 1])
  }

  /** The accumulated text only grows: what was shown after `n` updates is a
      prefix of what is shown after `m`. */
  lemma {:induction false} StreamTextGrows(updates: seq<StreamUpdate>, n: nat, m: nat)
    requires n <= m <= |updates|
    ensures StreamText(updates, n) <= StreamText(updates, m)
    decreases m
  {
    if n < m {
      StreamTextGrows(updates, n, m - 1);
    }
  }
}
