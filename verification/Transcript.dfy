/** Transcript pairing: after every assistant message and before the next one, exactly one tool result
    per tool use, same ids and same order. */
module Transcript {
  import opened Collections
  import opened Messages

  /** The ids answered before the next assistant message. */
  function Answers(ms: seq<Message>): seq<string> {
    if ms == [] || ms[0].role == Assistant then []
    else ResultIdsOf(ms[0].content) + Answers(ms[1..])
  }

  function Asked(m: Message): seq<string> {
    Ids(ToolUses(m.content))
  }

  /** Nothing is answered unasked, and every assistant message is answered in full. */
  ghost predicate Paired(ms: seq<Message>) {
    PairedAfter([], ms)
  }

  ghost predicate PairedAfter(owed: seq<string>, ms: seq<Message>) {
    && Answers(ms) == owed
    && forall i :: 0 <= i < |ms| && ms[i].role == Assistant ==> Answers(ms[i + 1..]) == Asked(ms[i])
  }

  /** One pass over a transcript: the ids that are still owed at its end, unless an answer was out of
      place or an assistant message came too early. */
  function Owed(owed: seq<string>, ms: seq<Message>): Option<seq<string>>
    decreases |ms|
  {
    if ms == [] then Some(owed)
    else if ms[0].role == Assistant then
      if owed == [] then Owed(Asked(ms[0]), ms[1..]) else None
    else
      var answered := ResultIdsOf(ms[0].content);
      if answered <= owed then Owed(owed[|answered|..], ms[1..]) else None
  }

  lemma PairedStep(owed: seq<string>, ms: seq<Message>)
    requires ms != []
    ensures PairedAfter(owed, ms) <==>
      if ms[0].role == Assistant then owed == [] && PairedAfter(Asked(ms[0]), ms[1..])
      else
        var answered := ResultIdsOf(ms[0].content);
        answered <= owed && PairedAfter(owed[|answered|..], ms[1..])
  {
    var rest := ms[1..];
    assert forall i :: 0 <= i < |rest| ==> rest[i] == ms[i + 1] && rest[i + 1..] == ms[i + 2..];
    if PairedAfter(owed, ms) {
      forall i | 0 <= i < |rest| && rest[i].role == Assistant ensures Answers(rest[i + 1..]) == Asked(rest[i]) {
        assert Answers(ms[i + 1 + 1..]) == Asked(ms[i + 1]);
      }
    }
    if forall i :: 0 <= i < |rest| && rest[i].role == Assistant ==> Answers(rest[i + 1..]) == Asked(rest[i]) {
      forall i | 0 < i < |ms| && ms[i].role == Assistant ensures Answers(ms[i + 1..]) == Asked(ms[i]) {
        assert rest[i - 1] == ms[i] && rest[i - 1 + 1..] == ms[i + 1..];
      }
    }
  }

  /** The pass decides pairing. */
  lemma {:induction false} PairedIffNothingOwed(owed: seq<string>, ms: seq<Message>)
    ensures Owed(owed, ms) == Some([]) <==> PairedAfter(owed, ms)
    decreases |ms|
  {
    if ms != [] {
      PairedStep(owed, ms);
      if ms[0].role == Assistant {
        PairedIffNothingOwed(Asked(ms[0]), ms[1..]);
      } else {
        var answered := ResultIdsOf(ms[0].content);
        if answered <= owed {
          PairedIffNothingOwed(owed[|answered|..], ms[1..]);
        }
      }
    }
  }

  lemma {:induction false} OwedAppend(owed: seq<string>, a: seq<Message>, b: seq<Message>)
    ensures Owed(owed, a + b) == if Owed(owed, a).Some? then Owed(Owed(owed, a).value, b) else None
    decreases |a|
  {
    if a == [] {
      assert a + b == b;
    } else {
      assert (a + b)[1..] == a[1..] + b;
      if a[0].role == Assistant {
        OwedAppend(Asked(a[0]), a[1..], b);
      } else {
        var answered := ResultIdsOf(a[0].content);
        if answered <= owed {
          OwedAppend(owed[|answered|..], a[1..], b);
        }
      }
    }
  }

  /** Messages that are not the assistant's pay off the ids they answer, if these are asked for first. */
  lemma {:induction false} AnswersPay(owed: seq<string>, ms: seq<Message>)
    requires forall i :: 0 <= i < |ms| ==> ms[i].role != Assistant
    ensures Owed(owed, ms) == if ResultIds(ms) <= owed then Some(owed[|ResultIds(ms)|..]) else None
    decreases |ms|
  {
    if ms != [] {
      var answered := ResultIdsOf(ms[0].content);
      assert ResultIds(ms)[|answered|..] == ResultIds(ms[1..]) && ResultIds(ms)[..|answered|] == answered;
      if answered <= owed {
        assert owed == answered + owed[|answered|..];
        AnswersPay(owed[|answered|..], ms[1..]);
        PrefixAfter(answered, ResultIds(ms[1..]), owed[|answered|..]);
      } else {
        assert !(ResultIds(ms) <= owed);
      }
    }
  }

  lemma PrefixAfter<T>(a: seq<T>, b: seq<T>, c: seq<T>)
    ensures a + b <= a + c <==> b <= c
    ensures b <= c ==> (a + c)[|a + b|..] == c[|b|..]
  {
    if a + b <= a + c {
      assert b == (a + b)[|a|..] && (a + c)[..|a + b|][|a|..] == c[..|b|];
    }
    if b <= c {
      assert c == b + c[|b|..];
    }
  }

  lemma PlainOwesNothing(owed: seq<string>, ms: seq<Message>)
    requires AllPlain(ms)
    ensures Owed(owed, ms) == Some(owed)
  {
    PlainAnswersNothing(ms);
    AnswersPay(owed, ms);
  }

  /** Appending an assistant message to a paired transcript makes exactly its tool uses owed. */
  lemma AssistantAsks(ms: seq<Message>, content: seq<Block>)
    requires Owed([], ms) == Some([])
    ensures Owed([], ms + [Message(Assistant, content)]) == Some(Ids(ToolUses(content)))
  {
    var m := Message(Assistant, content);
    OwedAppend([], ms, [m]);
    assert [m][1..] == [];
    assert Owed([], [m]) == Owed(Asked(m), []);
  }

  // ---------------------------------------------------------------------------------------------
  // Trimming blank user messages off the end

  /** A block that keeps its message from being an empty artifact. */
  predicate Speaks(b: Block) {
    match b
    case Text(text) => !Blank(text)
    case _ => true
  }

  /** isEmptyContinuationArtifact. */
  predicate IsArtifact(m: Message) {
    m.role == User && forall i :: 0 <= i < |m.content| ==> !Speaks(m.content[i])
  }

  /** normalizeLeadingContinuationArtifacts: at least one message is kept. */
  function Trimmed(ms: seq<Message>): seq<Message> {
    if |ms| > 1 && IsArtifact(ms[|ms| - 1]) then Trimmed(ms[..|ms| - 1]) else ms
  }

  method TrimArtifacts(messages: seq<Message>) returns (trimmed: seq<Message>)
    ensures trimmed == Trimmed(messages)
  {
    trimmed := messages;
    while |trimmed| > 1 && IsArtifact(trimmed[|trimmed| - 1])
      invariant Trimmed(messages) == Trimmed(trimmed)
    {
      trimmed := trimmed[..|trimmed| - 1];
    }
  }

  lemma ArtifactIsPlain(m: Message)
    requires IsArtifact(m)
    ensures Plain(m)
  {
    assert forall i :: 0 <= i < |m.content| && m.content[i].ToolResultBlock? ==> Speaks(m.content[i]);
  }

  /** Trimming cuts a suffix of plain messages, so what is owed stays what it was. */
  lemma {:induction false} TrimmingOwesTheSame(ms: seq<Message>)
    ensures Trimmed(ms) <= ms && (ms != [] ==> Trimmed(ms) != [])
    ensures |Trimmed(ms)| > 1 ==> !IsArtifact(Trimmed(ms)[|Trimmed(ms)| - 1])
    ensures AllPlain(ms[|Trimmed(ms)|..])
    ensures Owed([], Trimmed(ms)) == Owed([], ms)
  {
    hide Owed;
    var n := |ms| - 1;
    if n > 0 && IsArtifact(ms[n]) {
      TrimmingOwesTheSame(ms[..n]);
      ArtifactIsPlain(ms[n]);
      assert ms == ms[..n] + [ms[n]];
      OwedAppend([], ms[..n], [ms[n]]);
      if Owed([], ms[..n]).Some? {
        PlainOwesNothing(Owed([], ms[..n]).value, [ms[n]]);
      }
    }
  }
}
