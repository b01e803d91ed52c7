/** The fixed texts of the chat app: the friendly wrapper around a model
    answer, the apology that replaces it when the remote call fails, and the
    instruction prompt sent to the remote model. Every constant is written
    character for character, including the U+FEFF that ends the closing
    sentence and the instruction. */
module Replies {
  import opened Whitespace

  /** The sentence placed before every answer. */
  const Preamble: string := "Pertanyaan bagus banget! \U{1F331}\n\n"

  /** The question placed after every answer. */
  const Closing: string :=
    "Apakah Anda ingin saya menjelaskan lebih lanjut tentang bagian ini, atau apakah Anda memiliki pertanyaan lain tentang iklim?\U{FEFF}"

  /** Everything that follows the stripped answer. */
  const Postscript: string := "\n\n" + Closing

  /** The apology that surrounds the error description. */
  const ApologyHead: string := "Maafkan, Saya menemukan sebuah error: "
  const ApologyTail: string := ". Tolong tanyakan pertanyaannya sekali lagi."

  /** The instruction the question is appended to before it is sent. */
  const Instruction: string :=
    "Anda adalah ahli iklim dan keberlanjutan yang sangat membantu. Tolong berikan informasi yang akurat dan membangkitkan semangat tentang:\U{FEFF}"

  /** `friendly_wrap(raw_text)`: the answer, stripped of edge whitespace,
      between the fixed preamble and the closing question. */
  function FriendlyWrap(raw: string): (r: string)
    ensures |r| == |Preamble| + |Strip(raw)| + |Postscript|
  {
    Preamble + Strip(raw) + Postscript
  }

  /** The assistant text used instead of a wrapped answer when the remote
      call raises; the description is embedded as it is, not stripped. */
  function ErrorReply(description: string): (r: string)
    ensures |r| == |ApologyHead| + |description| + |ApologyTail|
  {
    ApologyHead + description + ApologyTail
  }

  /** The text sent to the remote model for one question: the instruction,
      one space, the question verbatim. */
  function RequestPrompt(question: string): (r: string)
    ensures |r| == |Instruction| + 1 + |question|
  {
    Instruction + " " + question
  }

  /** What an assistant text reveals about how it was produced. */
  datatype Reading = Wrapped(answer: string) | Apologised(description: string) | Unrecognised

  /** Reads an assistant text back: the inverse of FriendlyWrap and ErrorReply. */
  function ParseReply(r: string): Reading {
    if |Preamble| + |Postscript| <= |r| && r[..|Preamble|] == Preamble && r[|r| - |Postscript|..] == Postscript then
      Wrapped(r[|Preamble|..|r| - |Postscript|])
    else if |ApologyHead| + |ApologyTail| <= |r| && r[..|ApologyHead|] == ApologyHead && r[|r| - |ApologyTail|..] == ApologyTail then
      Apologised(r[|ApologyHead|..|r| - |ApologyTail|])
    else
      Unrecognised
  }

  /** A wrapped answer reads back as exactly the stripped answer. */
  lemma ParseFriendlyWrap(raw: string)
    ensures ParseReply(FriendlyWrap(raw)) == Wrapped(Strip(raw))
  {
    var m := Strip(raw);
    var r := FriendlyWrap(raw);
    assert r[..|Preamble|] == Preamble;
    assert r[|r| - |Postscript|..] == Postscript;
    assert r[|Preamble|..|r| - |Postscript|] == m;
  }

  /** An apology reads back as exactly the error description, and never as a
      wrapped answer: the failure text replaces the wrapper, it does not
      compose with it. */
  lemma ParseErrorReply(description: string)
    ensures ParseReply(ErrorReply(description)) == Apologised(description)
  {
    var r := ErrorReply(description);
    assert r[0] == 'M' && Preamble[0] == 'P';
    assert r[..|Preamble|] != Preamble by {
      assert r[..|Preamble|][0] != Preamble[0];
    }
    assert r[..|ApologyHead|] == ApologyHead;
    assert r[|r| - |ApologyTail|..] == ApologyTail;
    assert r[|ApologyHead|..|r| - |ApologyTail|] == description;
  }

  /** Two answers are wrapped alike exactly when they agree once stripped. */
  lemma FriendlyWrapInjective(a: string, b: string)
    ensures FriendlyWrap(a) == FriendlyWrap(b) <==> Strip(a) == Strip(b)
  {
    if FriendlyWrap(a) == FriendlyWrap(b) {
      ParseFriendlyWrap(a);
      ParseFriendlyWrap(b);
    }
  }

  /** Whitespace on either side of the answer does not show in the reply,
      so wrapping an already stripped answer changes nothing. */
  lemma FriendlyWrapIgnoresEdgeWhitespace(lead: string, raw: string, trail: string)
    requires AllSpace(lead) && AllSpace(trail)
    ensures FriendlyWrap(lead + raw + trail) == FriendlyWrap(raw)
    ensures FriendlyWrap(Strip(raw)) == FriendlyWrap(raw)
  {
    StripIgnoresPadding(lead, raw, trail);
    StripIdempotent(raw);
  }

  /** The request is the instruction and one space, then the question
      verbatim; different questions give different requests. */
  lemma RequestPromptInjective(a: string, b: string)
    ensures RequestPrompt(a)[..|Instruction| + 1] == Instruction + " "
    ensures RequestPrompt(a)[|Instruction| + 1..] == a
    ensures RequestPrompt(a) == RequestPrompt(b) <==> a == b
  {
    assert RequestPrompt(a)[|Instruction| + 1..] == a;
    assert RequestPrompt(b)[|Instruction| + 1..] == b;
  }
}
