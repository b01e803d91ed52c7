/** The session transcript of the chat app and one run of its script.

    The framework re-runs the whole script on every interaction; the only
    state that survives between runs is the transcript, which is either
    absent (the session has no "messages" key) or a list of turns. One run
    checks the API key, handles the reset button, initialises the transcript
    if it is absent, and answers the question typed in this run, if any. */
module Session {
  import opened Whitespace
  import opened Replies

  datatype Option<T> = None | Some(value: T)

  datatype Role = User | Assistant

  /** One message of the transcript. */
  datatype Turn = Turn(role: Role, content: string)

  /** What the remote completion call did: returned an answer, or raised an
      exception whose description is given. */
  datatype Outcome = Success(answer: string) | Failure(description: string)

  /** What one run of the script is given: the API key field, whether the
      client library accepted it, whether the reset button was pressed, the
      chat input ("" when nothing was submitted) and what the remote call
      would do if it were made. */
  datatype Run = Run(apiKey: string, configured: bool, resetPressed: bool, prompt: string, outcome: Outcome)

  /** What one run leaves behind: the transcript, and the request built for
      the remote call, if the run made one. */
  datatype Step = Step(messages: Option<seq<Turn>>, request: Option<string>)

  /** The assistant's opening message. */
  const Greeting: string :=
    "Halo! Aku asisten iklimmu. Tanyakan apa saja tentang energi surya, keberlanjutan, atau ilmu iklim. Mau dibantu apa hari ini?\U{FEFF}"

  const GreetingTurn: Turn := Turn(Assistant, Greeting)

  /** The assistant text stored for one remote call: the wrapped answer on
      success, the apology on failure. */
  function Reply(outcome: Outcome): (r: string)
    ensures outcome.Success? ==> (|r| == |Preamble| + |Strip(outcome.answer)| + |Postscript| &&
      r[..|Preamble|] == Preamble && r[|Preamble|..|r| - |Postscript|] == Strip(outcome.answer) &&
      r[|r| - |Postscript|..] == Postscript)
    ensures outcome.Failure? ==> (|r| == |ApologyHead| + |outcome.description| + |ApologyTail| &&
      r[..|ApologyHead|] == ApologyHead && r[|ApologyHead|..|r| - |ApologyTail|] == outcome.description &&
      r[|r| - |ApologyTail|..] == ApologyTail)
  {
    match outcome
    case Success(answer) => FriendlyWrap(answer)
    case Failure(description) => ErrorReply(description)
  }

  /** Reading a reply back gives the stripped answer or the error
      description, so a failure can never pass for an answer. */
  lemma ReplyReadsBack(outcome: Outcome)
    ensures ParseReply(Reply(outcome)) == match outcome
      case Success(answer) => Wrapped(Strip(answer))
      case Failure(description) => Apologised(description)
  {
    match outcome
    case Success(answer) => ParseFriendlyWrap(answer);
    case Failure(description) => ParseErrorReply(description);
  }

  /** The transcript after the initialisation step of a run: a present
      transcript is kept, an absent one becomes a well-formed one. */
  function Initialized(m: Option<seq<Turn>>): (r: seq<Turn>)
    ensures m.Some? ==> r == m.value
    ensures m.None? ==> |r| == 1
    ensures ValidState(m) ==> WellFormed(r)
  {
    if m.None? then [GreetingTurn] else m.value
  }

  /** The turns one submitted question adds. */
  function Exchange(prompt: string, outcome: Outcome): (r: seq<Turn>)
    ensures prompt == [] <==> r == []
    ensures r != [] ==> |r| == 2 && r[0] == Turn(User, prompt) && r[1].role == Assistant
  {
    if prompt == [] then [] else [Turn(User, prompt), Turn(Assistant, Reply(outcome))]
  }

  /** The request a run builds: only the latest question, never the history. */
  function Request(prompt: string): (r: Option<string>)
    ensures r.Some? <==> prompt != []
    ensures r.Some? ==> |r.value| == |Instruction| + 1 + |prompt| && r.value[|Instruction| + 1..] == prompt
  {
    if prompt == [] then None else Some(RequestPrompt(prompt))
  }

  /** One run of the script, from the transcript it starts with. */
  function RunScript(m: Option<seq<Turn>>, run: Run): (r: Step)
    ensures r.request.Some? <==> Answers(run) && run.prompt != []
    ensures (run.apiKey == [] || !run.configured) ==> r.messages == m
    ensures run.apiKey != [] && run.configured && run.resetPressed ==> r.messages == None
    ensures Answers(run) ==> (r.messages.Some? && |Initialized(m)| <= |r.messages.value| &&
      r.messages.value[..|Initialized(m)|] == Initialized(m))
  {
    if run.apiKey == [] || !run.configured then Step(m, None)
    else if run.resetPressed then Step(None, None)
    else Step(Some(Initialized(m) + Exchange(run.prompt, run.outcome)), Request(run.prompt))
  }

  /** The transcript after a sequence of runs. */
  function RunAll(m: Option<seq<Turn>>, runs: seq<Run>): Option<seq<Turn>>
    decreases |runs|
  {
    if runs == [] then m else RunAll(RunScript(m, runs[0]).messages, runs[1..])
  }

  /** The turns added by a sequence of questions, in order. */
  function Exchanges(runs: seq<Run>): seq<Turn>
    decreases |runs|
  {
    if runs == [] then [] else Exchange(runs[0].prompt, runs[0].outcome) + Exchanges(runs[1..])
  }

  /** A run that gets past the key check and does not reset. */
  predicate Answers(run: Run) {
    run.apiKey != [] && run.configured && !run.resetPressed
  }

  /** The shape every transcript has: the greeting, then pairs of a
      non-empty user question and an assistant reply. */
  predicate WellFormed(msgs: seq<Turn>) {
    |msgs| % 2 == 1 && msgs[0] == GreetingTurn &&
    forall k :: 0 < k < |msgs| ==>
      if k % 2 == 1 then msgs[k].role == User && msgs[k].content != [] else msgs[k].role == Assistant
  }

  predicate ValidState(m: Option<seq<Turn>>) {
    m.None? || WellFormed(m.value)
  }

  /** The session state of the script: `st.session_state.messages`. */
  class Transcript {
    var messages: Option<seq<Turn>>

    /** A new session has no transcript yet. */
    constructor ()
      ensures messages == None
    {
      messages := None;
    }

    /** The reset button: the transcript is dropped, whatever it held. */
    method Reset()
      modifies this
      ensures messages == None
    {
      messages := None;
    }

    /** Creates the transcript with the greeting when it is absent; a
        present transcript, even an empty one, is left alone. */
    method InitIfAbsent()
      modifies this
      ensures messages == Some(Initialized(old(messages)))
      ensures old(messages).Some? ==> messages == old(messages)
      ensures old(messages).None? ==> messages == Some([GreetingTurn])
    {
      if messages.None? {
        messages := Some([GreetingTurn]);
      }
    }

    /** Handles the chat input: an empty input does nothing; otherwise the
        question is appended, the request is built from it alone, and the
        reply to it is appended after it. */
    method Submit(prompt: string, outcome: Outcome) returns (request: Option<string>)
      requires messages.Some?
      modifies this
      ensures messages == Some(old(messages).value + Exchange(prompt, outcome))
      ensures request == Request(prompt)
    {
      request := None;
      if prompt != [] {
        messages := Some(messages.value + [Turn(User, prompt)]);
        request := Some(RequestPrompt(prompt));
        var reply := Reply(outcome);
        messages := Some(messages.value + [Turn(Assistant, reply)]);
        assert messages.value == old(messages).value + [Turn(User, prompt), Turn(Assistant, reply)];
      } else {
        assert messages.value + [] == messages.value;
      }
    }

    /** One run of the script: key check, reset, initialisation, input. */
    method RunOnce(run: Run) returns (request: Option<string>)
      modifies this
      ensures Step(messages, request) == RunScript(old(messages), run)
      ensures ValidState(old(messages)) ==> ValidState(messages)
    {
      if ValidState(messages) {
        RunKeepsWellFormed(messages, run);
      }
      if run.apiKey == [] {
        return None;
      }
      if !run.configured {
        return None;
      }
      if run.resetPressed {
        Reset();
        return None;
      }
      InitIfAbsent();
      request := Submit(run.prompt, run.outcome);
    }
  }

  /** A submitted question adds exactly two turns after the existing ones:
      the question verbatim, then the reply; an empty input adds none. */
  lemma ExchangeAppends(m: Option<seq<Turn>>, run: Run)
    requires Answers(run)
    ensures var r := RunScript(m, run).messages;
      r.Some? && r.value[..|Initialized(m)|] == Initialized(m) &&
      (run.prompt == [] ==> r.value == Initialized(m)) &&
      (run.prompt != [] ==>
        |r.value| == |Initialized(m)| + 2 &&
        r.value[|r.value| - 2] == Turn(User, run.prompt) &&
        r.value[|r.value| - 1] == Turn(Assistant, Reply(run.outcome)))
  {
  }

  /** A reset followed by the rerun it triggers leaves exactly the greeting,
      however long the transcript was. */
  lemma ResetThenRerun(m: Option<seq<Turn>>, reset: Run, rerun: Run)
    requires reset.apiKey != [] && reset.configured && reset.resetPressed
    requires Answers(rerun) && rerun.prompt == []
    ensures RunScript(RunScript(m, reset).messages, rerun).messages == Some([GreetingTurn])
  {
    assert [GreetingTurn] + [] == [GreetingTurn];
  }

  /** No request is built unless the key is set and accepted, the run is not
      a reset and a question was typed; the request is built from that
      question only, whatever the transcript holds. */
  lemma RequestOnlyForQuestion(m: Option<seq<Turn>>, run: Run)
    ensures RunScript(m, run).request.Some? <==> Answers(run) && run.prompt != []
    ensures RunScript(m, run).request.Some? ==> RunScript(m, run).request.value == RequestPrompt(run.prompt)
    ensures forall m' :: RunScript(m', run).request == RunScript(m, run).request
  {
  }

  /** Without an API key the client library accepts, a session never
      changes its transcript. */
  lemma {:induction false} NoKeyNoChange(m: Option<seq<Turn>>, runs: seq<Run>)
    requires forall i :: 0 <= i < |runs| ==> runs[i].apiKey == [] || !runs[i].configured
    ensures RunAll(m, runs) == m
    decreases |runs|
  {
    if runs != [] {
      NoKeyNoChange(m, runs[1..]);
    }
  }

  /** Appending a non-empty question and a reply keeps the transcript's shape. */
  lemma AppendKeepsWellFormed(before: seq<Turn>, prompt: string, reply: string)
    requires WellFormed(before) && prompt != []
    ensures WellFormed(before + [Turn(User, prompt), Turn(Assistant, reply)])
  {
    var after := before + [Turn(User, prompt), Turn(Assistant, reply)];
    var n := |before|;
    assert after[n] == Turn(User, prompt) && after[n + 1] == Turn(Assistant, reply);
    assert n % 2 == 1 && (n + 1) % 2 == 0;
    forall k | 0 < k < |after|
      ensures if k % 2 == 1 then after[k].role == User && after[k].content != [] else after[k].role == Assistant
    {
      if k < n { assert after[k] == before[k]; }
    }
  }

  /** Each run keeps the transcript's shape. */
  lemma RunKeepsWellFormed(m: Option<seq<Turn>>, run: Run)
    requires ValidState(m)
    ensures ValidState(RunScript(m, run).messages)
  {
    if Answers(run) {
      var before := Initialized(m);
      assert WellFormed(before);
      if run.prompt != [] {
        AppendKeepsWellFormed(before, run.prompt, Reply(run.outcome));
      } else {
        assert before + Exchange(run.prompt, run.outcome) == before;
      }
    }
  }

  /** Whatever the runs, with or without resets, the transcript is absent or
      starts with the greeting followed by question/reply pairs. */
  lemma {:induction false} RunAllKeepsWellFormed(m: Option<seq<Turn>>, runs: seq<Run>)
    requires ValidState(m)
    ensures ValidState(RunAll(m, runs))
    decreases |runs|
  {
    if runs != [] {
      RunKeepsWellFormed(m, runs[0]);
      RunAllKeepsWellFormed(RunScript(m, runs[0]).messages, runs[1..]);
    }
  }

  lemma Regroup(init: seq<Turn>, first: seq<Turn>, rest: seq<Turn>)
    ensures (init + first) + rest == init + (first + rest)
    ensures rest == [] ==> first + rest == first
  {
  }

  /** One answering run at the head of a session appends its exchange. */
  lemma RunAllHead(m: Option<seq<Turn>>, runs: seq<Run>)
    requires runs != [] && Answers(runs[0])
    ensures RunAll(m, runs) == RunAll(Some(Initialized(m) + Exchange(runs[0].prompt, runs[0].outcome)), runs[1..])
  {
  }

  /** A session without resets whose key is set: the transcript is what it
      started as (or the greeting), followed by one user turn and one reply
      per submitted question, in order; nothing earlier changes. */
  lemma {:induction false} RunAllAppends(m: Option<seq<Turn>>, runs: seq<Run>)
    requires forall i :: 0 <= i < |runs| ==> Answers(runs[i])
    ensures RunAll(m, runs) == if runs == [] then m else Some(Initialized(m) + Exchanges(runs))
    decreases |runs|
  {
    if runs != [] {
      var init, first, rest := Initialized(m), Exchange(runs[0].prompt, runs[0].outcome), Exchanges(runs[1..]);
      RunAllHead(m, runs);
      RunAllAppends(Some(init + first), runs[1..]);
      assert Exchanges(runs) == first + rest;
      Regroup(init, first, rest);
    }
  }
}
