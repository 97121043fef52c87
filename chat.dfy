/**
 * The chat history kept in the session state and one run of the script:
 * initialise the history when absent, and on a submitted prompt record the
 * user's message, ask the engine, show the source links and record the answer.
 */
module Chat {
  import opened Wrappers
  import opened SourceLinks
  import opened Prompt

  datatype Role = User | Assistant

  /** One `{"role": ..., "content": ...}` entry of the history. */
  datatype Message = Message(role: Role, content: string)

  /** What the query engine returns: the answer text and the metadata of the retrieved chunks. */
  datatype QueryResponse = QueryResponse(response: string, metadata: seq<Entry>)

  /** One handled turn: the prompt as typed and the answer text. */
  datatype Turn = Turn(prompt: string, response: string)

  /** The history after a sequence of turns, starting from an empty one. */
  function Transcript(turns: seq<Turn>): (history: seq<Message>)
    ensures |history| == 2 * |turns|
    ensures forall k :: 0 <= k < |turns| ==>
      history[2 * k] == Message(User, turns[k].prompt) &&
      history[2 * k + 1] == Message(Assistant, turns[k].response)
  {
    if turns == [] then []
    else
      var last := turns[|turns| - 1];
      Transcript(turns[..|turns| - 1]) + [Message(User, last.prompt), Message(Assistant, last.response)]
  }

  /** Roles alternate user, assistant, user, ..., and every user message has its answer. */
  predicate Alternating(history: seq<Message>) {
    |history| % 2 == 0 &&
    forall k :: 0 <= k < |history| ==> history[k].role == (if k % 2 == 0 then User else Assistant)
  }

  /** The turns an alternating history records. */
  function TurnsOf(history: seq<Message>): (turns: seq<Turn>)
    requires Alternating(history)
    ensures |turns| * 2 == |history|
  {
    seq(|history| / 2, k requires 0 <= k < |history| / 2 => Turn(history[2 * k].content, history[2 * k + 1].content))
  }

  /** Every transcript alternates, and its turns can be read back from it. */
  lemma TranscriptAlternates(turns: seq<Turn>)
    ensures Alternating(Transcript(turns))
    ensures TurnsOf(Transcript(turns)) == turns
  {
  }

  /** Conversely, every alternating history is the transcript of the turns it records. */
  lemma AlternatingIsTranscript(history: seq<Message>)
    requires Alternating(history)
    ensures Transcript(TurnsOf(history)) == history
  {
    var t := TurnsOf(history);
    var h := Transcript(t);
    forall k | 0 <= k < |history| ensures h[k] == history[k] {
      var j := k / 2;
      assert t[j] == Turn(history[2 * j].content, history[2 * j + 1].content);
      if k == 2 * j {
        assert history[k].role == User;
        assert h[k] == Message(User, history[k].content);
      } else {
        assert k == 2 * j + 1;
        assert history[k].role == Assistant;
        assert h[k] == Message(Assistant, history[k].content);
      }
    }
  }

  /** A handled turn extends the transcript by the turn's two messages. */
  lemma TranscriptAppend(turns: seq<Turn>, turn: Turn)
    ensures Transcript(turns + [turn]) ==
      Transcript(turns) + [Message(User, turn.prompt), Message(Assistant, turn.response)]
  {
  }

  /** Appending a user message and then an assistant message keeps the history alternating. */
  lemma AppendTurnAlternates(history: seq<Message>, prompt: string, answer: string)
    requires Alternating(history)
    ensures Alternating(history + [Message(User, prompt), Message(Assistant, answer)])
  {
  }

  /** `if prompt := st.chat_input(...)`: a prompt counts only when present and non-empty. */
  predicate Submitted(input: Option<string>) {
    input.Some? && input.value != ""
  }

  /** The per-session state; `messages` is None while the "messages" key is absent. */
  class SessionState {
    var messages: Option<seq<Message>>

    /** A new session has no history key yet. */
    constructor ()
      ensures messages == None
    {
      messages := None;
    }

    /** Creates an empty history only when none exists; an existing one is kept as it is. */
    method InitHistory()
      modifies this
      ensures old(messages) == None ==> messages == Some([])
      ensures old(messages) != None ==> messages == old(messages)
    {
      if messages == None {
        messages := Some([]);
      }
    }

    /**
     * One submitted prompt: the raw prompt is recorded, the augmented prompt is
     * sent to the engine, the source links of its metadata are shown and the
     * answer text is recorded after the prompt.
     */
    method HandleTurn(prompt: string, engine: string -> QueryResponse) returns (answer: string, links: seq<Link>)
      requires messages.Some?
      requires AllNamed(engine(Augment(prompt)).metadata)
      modifies this
      ensures answer == engine(Augment(prompt)).response
      ensures links == Annotate(FileNames(engine(Augment(prompt)).metadata))
      ensures messages == Some(old(messages).value + [Message(User, prompt), Message(Assistant, answer)])
      ensures Alternating(old(messages).value) ==> Alternating(messages.value)
      ensures forall turns :: old(messages).value == Transcript(turns) ==>
        messages.value == Transcript(turns + [Turn(prompt, answer)])
    {
      ghost var before := messages.value;
      messages := Some(messages.value + [Message(User, prompt)]);
      var query := Augment(prompt);
      var raw := engine(query);
      answer := raw.response;
      links := ShowSources(raw.metadata);
      messages := Some(messages.value + [Message(Assistant, answer)]);
      assert messages.value == before + [Message(User, prompt), Message(Assistant, answer)];
      if Alternating(before) {
        AppendTurnAlternates(before, prompt, answer);
      }
      forall turns | old(messages).value == Transcript(turns)
        ensures messages.value == Transcript(turns + [Turn(prompt, answer)])
      {
        TranscriptAppend(turns, Turn(prompt, answer));
      }
    }

    /**
     * One run of the script: the history is initialised when absent, and a
     * submitted prompt is handled as one turn. Returns the links shown.
     */
    method Rerun(input: Option<string>, engine: string -> QueryResponse) returns (links: seq<Link>)
      requires Submitted(input) ==> AllNamed(engine(Augment(input.value)).metadata)
      modifies this
      ensures var before := if old(messages) == None then [] else old(messages).value;
        messages == Some(
          if Submitted(input)
          then before + [Message(User, input.value), Message(Assistant, engine(Augment(input.value)).response)]
          else before)
      ensures links == if Submitted(input) then Annotate(FileNames(engine(Augment(input.value)).metadata)) else []
    {
      InitHistory();
      links := [];
      if Submitted(input) {
        var _, shown := HandleTurn(input.value, engine);
        links := shown;
      }
    }
  }
}
