/** The redactor of pkg/a2aext/redact.go: one-shot and streaming replacement of secrets. */
module Redaction {
  import opened Bytes
  import opened Wrappers

  /** The text "[REDACTED]". */
  const PLACEHOLDER: Text := [91, 82, 69, 68, 65, 67, 84, 69, 68, 93]

  // ---------------------------------------------------------------- the secret list

  /** Longer secrets come first; equal lengths are ordered bytewise. */
  predicate Before(a: Text, b: Text) {
    |a| > |b| || (|a| == |b| && Less(a, b))
  }

  ghost predicate Ordered(secrets: seq<Text>) {
    forall i, j :: 0 <= i < j < |secrets| ==> Before(secrets[i], secrets[j])
  }

  predicate Usable(secret: Text) {
    secret != [] && secret != PLACEHOLDER
  }

  ghost predicate AllUsable(secrets: seq<Text>) {
    forall s :: s in secrets ==> Usable(s)
  }

  function Insert(secret: Text, secrets: seq<Text>): seq<Text> {
    if secrets == [] then [secret]
    else if Before(secret, secrets[0]) then [secret] + secrets
    else [secrets[0]] + Insert(secret, secrets[1..])
  }

  /** The order in which the library sort leaves the cleaned list. */
  function SortSecrets(secrets: seq<Text>): seq<Text> {
    if secrets == [] then [] else Insert(secrets[0], SortSecrets(secrets[1..]))
  }

  lemma BeforeTransitive(a: Text, b: Text, c: Text)
    requires Before(a, b) && Before(b, c)
    ensures Before(a, c)
  {
    if |a| == |b| == |c| {
      LessTransitive(a, b, c);
    }
  }

  lemma {:induction false} InsertMembers(secret: Text, secrets: seq<Text>)
    ensures multiset(Insert(secret, secrets)) == multiset(secrets) + multiset{secret}
  {
    if secrets != [] && !Before(secret, secrets[0]) {
      InsertMembers(secret, secrets[1..]);
      assert secrets == [secrets[0]] + secrets[1..];
    }
  }

  lemma {:induction false} InsertOrdered(secret: Text, secrets: seq<Text>)
    requires Ordered(secrets) && secret !in secrets
    ensures Ordered(Insert(secret, secrets))
  {
    if secrets != [] {
      if Before(secret, secrets[0]) {
        forall j | 0 <= j < |secrets| ensures Before(secret, secrets[j]) {
          if j > 0 { BeforeTransitive(secret, secrets[0], secrets[j]); }
        }
      } else {
        var rest := Insert(secret, secrets[1..]);
        InsertOrdered(secret, secrets[1..]);
        InsertMembers(secret, secrets[1..]);
        LessTotal(secret, secrets[0]);
        assert Before(secrets[0], secret);
        forall j | 0 <= j < |rest| ensures Before(secrets[0], rest[j]) {
          assert rest[j] in multiset(rest);
          assert rest[j] == secret || rest[j] in secrets[1..];
        }
      }
    }
  }

  lemma {:induction false} SortSecretsSorts(secrets: seq<Text>)
    requires forall i, j :: 0 <= i < j < |secrets| ==> secrets[i] != secrets[j]
    ensures Ordered(SortSecrets(secrets))
    ensures multiset(SortSecrets(secrets)) == multiset(secrets)
  {
    if secrets != [] {
      var rest := secrets[1..];
      SortSecretsSorts(rest);
      assert secrets == [secrets[0]] + rest;
      assert secrets[0] !in rest;
      assert forall s :: s in SortSecrets(rest) ==> s in multiset(SortSecrets(rest));
      InsertOrdered(secrets[0], SortSecrets(rest));
      InsertMembers(secrets[0], SortSecrets(rest));
    }
  }

  // ---------------------------------------------------------------- one-shot redaction

  /** The first secret of the list that the text starts with. */
  function FirstMatch(secrets: seq<Text>, text: Text): (m: Option<Text>)
    ensures m.Some? ==> m.value in secrets && m.value <= text
    ensures m.None? ==> forall i :: 0 <= i < |secrets| ==> !(secrets[i] <= text)
  {
    if secrets == [] then None
    else if secrets[0] <= text then Some(secrets[0])
    else FirstMatch(secrets[1..], text)
  }

  /** How much of the text the next decision consumes. */
  function Width(secrets: seq<Text>, text: Text): (n: nat)
    requires AllUsable(secrets) && text != []
    ensures 0 < n <= |text|
  {
    match FirstMatch(secrets, text)
    case Some(m) => |m|
    case None => 1
  }

  /** What the next decision writes. */
  function Shown(secrets: seq<Text>, text: Text): Text
    requires text != []
  {
    if FirstMatch(secrets, text).Some? then PLACEHOLDER else [text[0]]
  }

  /** What strings.NewReplacer computes: scan left to right, replace the first listed match. */
  function Redact(secrets: seq<Text>, text: Text): Text
    requires AllUsable(secrets)
    decreases |text|
  {
    if text == [] then []
    else Shown(secrets, text) + Redact(secrets, text[Width(secrets, text)..])
  }

  // ---------------------------------------------------------------- streaming redaction

  /** The held text is a proper prefix of some secret, so more input may complete it. */
  predicate Waiting(secrets: seq<Text>, pending: Text) {
    exists i :: 0 <= i < |secrets| && |pending| < |secrets[i]| && pending <= secrets[i]
  }

  predicate Stops(secrets: seq<Text>, pending: Text, final: bool) {
    pending == [] || (!final && Waiting(secrets, pending))
  }

  /** What one RedactChunk call emits for the joined pending text. */
  function Emitted(secrets: seq<Text>, pending: Text, final: bool): Text
    requires AllUsable(secrets)
    decreases |pending|
  {
    if Stops(secrets, pending, final) then []
    else Shown(secrets, pending) + Emitted(secrets, pending[Width(secrets, pending)..], final)
  }

  /** What the call holds back: nothing, or a proper prefix of some secret. */
  function Held(secrets: seq<Text>, pending: Text, final: bool): (held: Text)
    requires AllUsable(secrets)
    ensures held == [] || (!final && Waiting(secrets, held))
    decreases |pending|
  {
    if Stops(secrets, pending, final) then pending
    else Held(secrets, pending[Width(secrets, pending)..], final)
  }

  /** All outputs of a chunked run: non-final calls on the chunks, then the final call on the last one. */
  function Feed(secrets: seq<Text>, pending: Text, chunks: seq<Text>, last: Text): Text
    requires AllUsable(secrets)
    decreases |chunks|
  {
    if chunks == [] then Emitted(secrets, pending + last, true)
    else
      Emitted(secrets, pending + chunks[0], false)
      + Feed(secrets, Held(secrets, pending + chunks[0], false), chunks[1..], last)
  }

  lemma PrefixIsStable(s: Text, pending: Text, more: Text)
    requires !(|pending| < |s| && pending <= s)
    ensures s <= pending <==> s <= pending + more
  {
    assert (pending + more)[..|pending|] == pending;
  }

  /** When nothing longer can match, the future cannot change the decision at this position. */
  lemma {:induction false} MatchIsStable(secrets: seq<Text>, pending: Text, more: Text)
    requires !Waiting(secrets, pending)
    ensures FirstMatch(secrets, pending) == FirstMatch(secrets, pending + more)
  {
    if secrets != [] {
      PrefixIsStable(secrets[0], pending, more);
      assert !(|pending| < |secrets[0]| && pending <= secrets[0]);
      assert forall i :: 0 <= i < |secrets[1..]| ==> secrets[1..][i] == secrets[i + 1];
      MatchIsStable(secrets[1..], pending, more);
    }
  }

  lemma EmitStep(secrets: seq<Text>, pending: Text, final: bool)
    requires AllUsable(secrets) && !Stops(secrets, pending, final)
    ensures var rest := pending[Width(secrets, pending)..];
            && Emitted(secrets, pending, final) == Shown(secrets, pending) + Emitted(secrets, rest, final)
            && Held(secrets, pending, final) == Held(secrets, rest, final)
  {
  }

  /** A decision that no continuation can change is also the one-shot decision. */
  lemma RedactStep(secrets: seq<Text>, pending: Text, more: Text)
    requires AllUsable(secrets) && !Stops(secrets, pending, false)
    ensures Redact(secrets, pending + more)
            == Shown(secrets, pending) + Redact(secrets, pending[Width(secrets, pending)..] + more)
  {
    MatchIsStable(secrets, pending, more);
    assert (pending + more)[Width(secrets, pending)..] == pending[Width(secrets, pending)..] + more;
  }

  /** A non-final call emits exactly the part of the answer that no continuation can change. */
  lemma {:induction false} EmittedIsSettled(secrets: seq<Text>, pending: Text, more: Text)
    requires AllUsable(secrets)
    ensures Redact(secrets, pending + more)
         == Emitted(secrets, pending, false) + Redact(secrets, Held(secrets, pending, false) + more)
    decreases |pending|
  {
    if !Stops(secrets, pending, false) {
      var rest := pending[Width(secrets, pending)..];
      EmitStep(secrets, pending, false);
      RedactStep(secrets, pending, more);
      EmittedIsSettled(secrets, rest, more);
      Assoc(Shown(secrets, pending), Emitted(secrets, rest, false), Redact(secrets, Held(secrets, rest, false) + more));
    }
  }

  lemma {:induction false} FinalCallRedacts(secrets: seq<Text>, pending: Text)
    requires AllUsable(secrets)
    ensures Emitted(secrets, pending, true) == Redact(secrets, pending)
    ensures Held(secrets, pending, true) == []
    decreases |pending|
  {
    if pending != [] {
      FinalCallRedacts(secrets, pending[Width(secrets, pending)..]);
    }
  }

  lemma Rejoin(pending: Text, chunks: seq<Text>, last: Text)
    requires chunks != []
    ensures (pending + chunks[0]) + (Concat(chunks[1..]) + last) == pending + (Concat(chunks) + last)
  {
    Assoc(pending, chunks[0], Concat(chunks[1..]) + last);
    Assoc(chunks[0], Concat(chunks[1..]), last);
  }

  /** Every split of a text into chunks yields the one-shot redaction of the whole text. */
  lemma {:induction false} StreamingEqualsOneShot(secrets: seq<Text>, pending: Text, chunks: seq<Text>, last: Text)
    requires AllUsable(secrets)
    ensures Feed(secrets, pending, chunks, last) == Redact(secrets, pending + (Concat(chunks) + last))
    decreases |chunks|
  {
    if chunks == [] {
      FinalCallRedacts(secrets, pending + last);
      assert Concat(chunks) + last == last;
    } else {
      var joined := pending + chunks[0];
      var more := Concat(chunks[1..]) + last;
      calc {
        Feed(secrets, pending, chunks, last);
        { StreamingEqualsOneShot(secrets, Held(secrets, joined, false), chunks[1..], last); }
        Emitted(secrets, joined, false) + Redact(secrets, Held(secrets, joined, false) + more);
        { EmittedIsSettled(secrets, joined, more); }
        Redact(secrets, joined + more);
        { Rejoin(pending, chunks, last); }
        Redact(secrets, pending + (Concat(chunks) + last));
      }
    }
  }

  // ---------------------------------------------------------------- leftmost-longest reference

  datatype Token = Plain(b: byte) | Hidden(secret: Text)

  function Source(tokens: seq<Token>): Text {
    if tokens == [] then []
    else (match tokens[0] case Plain(b) => [b] case Hidden(s) => s) + Source(tokens[1..])
  }

  function Render(tokens: seq<Token>): Text {
    if tokens == [] then []
    else (match tokens[0] case Plain(b) => [b] case Hidden(_) => PLACEHOLDER) + Render(tokens[1..])
  }

  /** A reading of the text in which every position takes the longest secret that starts there. */
  ghost predicate LeftmostLongest(secrets: set<Text>, tokens: seq<Token>) {
    tokens == [] ||
    (&& (match tokens[0]
         case Plain(_) => forall s :: s in secrets ==> !(s <= Source(tokens))
         case Hidden(h) => h in secrets && forall s :: s in secrets && s <= Source(tokens) ==> |s| <= |h|)
     && LeftmostLongest(secrets, tokens[1..]))
  }

  lemma {:induction false} FirstMatchIsLongest(secrets: seq<Text>, text: Text, s: Text)
    requires Ordered(secrets) && s in secrets && s <= text
    ensures FirstMatch(secrets, text).Some? && |s| <= |FirstMatch(secrets, text).value|
  {
    if secrets[0] <= text {
      assert forall i :: 0 < i < |secrets| ==> Before(secrets[0], secrets[i]);
    } else {
      assert s in secrets[1..];
      FirstMatchIsLongest(secrets[1..], text, s);
    }
  }

  lemma {:induction false} NoneMatches(secrets: seq<Text>, text: Text)
    requires forall s :: s in secrets ==> !(s <= text)
    ensures FirstMatch(secrets, text).None?
  {
    if secrets != [] {
      forall s | s in secrets[1..] ensures !(s <= text) {
        assert s in secrets;
      }
      NoneMatches(secrets[1..], text);
    }
  }

  /** Where the reading shows a plain byte, no secret matches. */
  lemma PlainHere(secrets: seq<Text>, all: set<Text>, tokens: seq<Token>)
    requires tokens != [] && tokens[0].Plain? && LeftmostLongest(all, tokens) && forall s :: s in secrets ==> s in all
    ensures FirstMatch(secrets, Source(tokens)).None?
  {
    NoneMatches(secrets, Source(tokens));
  }

  /** Where the reading hides a secret, that secret is the first match. */
  lemma HiddenHere(secrets: seq<Text>, all: set<Text>, tokens: seq<Token>)
    requires tokens != [] && tokens[0].Hidden? && LeftmostLongest(all, tokens) && Ordered(secrets)
    requires forall s :: s in secrets <==> s in all
    ensures FirstMatch(secrets, Source(tokens)) == Some(tokens[0].secret)
    ensures Source(tokens) == tokens[0].secret + Source(tokens[1..])
  {
    var text, h := Source(tokens), tokens[0].secret;
    FirstMatchIsLongest(secrets, text, h);
    var m := FirstMatch(secrets, text).value;
    assert m == text[..|m|] && h == text[..|h|];
  }

  /** The redaction depends only on the set of secrets: it renders the leftmost-longest reading. */
  lemma {:induction false} RedactionIsLeftmostLongest(secrets: seq<Text>, tokens: seq<Token>)
    requires AllUsable(secrets) && Ordered(secrets)
    requires LeftmostLongest((set s | s in secrets), tokens)
    ensures Redact(secrets, Source(tokens)) == Render(tokens)
  {
    if tokens != [] {
      var text := Source(tokens);
      RedactionIsLeftmostLongest(secrets, tokens[1..]);
      match tokens[0]
      case Plain(b) =>
        PlainHere(secrets, (set s | s in secrets), tokens);
        assert text[1..] == Source(tokens[1..]);
      case Hidden(h) =>
        HiddenHere(secrets, (set s | s in secrets), tokens);
        assert text[|h|..] == Source(tokens[1..]);
    }
  }

  /** Such a reading always exists. */
  lemma {:induction false} ReadingExists(secrets: seq<Text>, text: Text) returns (tokens: seq<Token>)
    requires AllUsable(secrets) && Ordered(secrets)
    ensures Source(tokens) == text && LeftmostLongest((set s | s in secrets), tokens)
    decreases |text|
  {
    tokens := [];
    if text != [] {
      match FirstMatch(secrets, text)
      case Some(m) =>
        var rest := ReadingExists(secrets, text[|m|..]);
        tokens := [Hidden(m)] + rest;
        assert tokens[1..] == rest && m + text[|m|..] == text;
        forall s | s in secrets && s <= text ensures |s| <= |m| {
          FirstMatchIsLongest(secrets, text, s);
        }
      case None =>
        var rest := ReadingExists(secrets, text[1..]);
        tokens := [Plain(text[0])] + rest;
        assert tokens[1..] == rest;
    }
  }

  /** The byte of the text at this position lies in a replaced stretch. */
  predicate Replaced(tokens: seq<Token>, at: nat) {
    tokens != [] &&
    var width := if tokens[0].Plain? then 1 else |tokens[0].secret|;
    if at < width then tokens[0].Hidden? else Replaced(tokens[1..], at - width)
  }

  lemma {:induction false} OccurrenceIsReplaced(secrets: set<Text>, tokens: seq<Token>, s: Text, at: nat)
    requires LeftmostLongest(secrets, tokens) && s in secrets && s != [] && at <= |Source(tokens)|
             && s <= Source(tokens)[at..]
    ensures Replaced(tokens, at)
  {
    var text := Source(tokens);
    if tokens != [] {
      var width := if tokens[0].Plain? then 1 else |tokens[0].secret|;
      if at >= width {
        assert text[at..] == Source(tokens[1..])[at - width..];
        OccurrenceIsReplaced(secrets, tokens[1..], s, at - width);
      }
    }
  }

  /** No occurrence of a secret comes through: its first byte is never copied, it lies in a stretch that became the
      placeholder. */
  lemma NoSecretComesThrough(secrets: seq<Text>, text: Text, s: Text, at: nat) returns (tokens: seq<Token>)
    requires AllUsable(secrets) && Ordered(secrets) && s in secrets && at <= |text| && s <= text[at..]
    ensures Source(tokens) == text && Redact(secrets, text) == Render(tokens) && Replaced(tokens, at)
  {
    tokens := ReadingExists(secrets, text);
    RedactionIsLeftmostLongest(secrets, tokens);
    OccurrenceIsReplaced((set x | x in secrets), tokens, s, at);
  }

  // ---------------------------------------------------------------- the object

  class Redactor {
    var secrets: seq<Text>
    var pending: Text

    ghost predicate Valid()
      reads this
    {
      && AllUsable(secrets) && Ordered(secrets)
      && (pending != [] ==> Waiting(secrets, pending))
    }

    /** NewRedactor: drop empty values, the placeholder itself and repetitions, then sort. */
    constructor (input: seq<Text>)
      ensures Valid() && pending == []
      ensures forall s :: s in secrets <==> s in input && Usable(s)
    {
      var clean: seq<Text> := [];
      for i := 0 to |input|
        invariant forall s :: s in clean <==> s in input[..i] && Usable(s)
        invariant forall p, q :: 0 <= p < q < |clean| ==> clean[p] != clean[q]
      {
        if Usable(input[i]) && input[i] !in clean {
          clean := clean + [input[i]];
        }
        assert input[..i + 1] == input[..i] + [input[i]];
      }
      SortSecretsSorts(clean);
      secrets := SortSecrets(clean);
      pending := [];
      assert forall s :: s in SortSecrets(clean) <==> s in multiset(SortSecrets(clean));
    }

    /** Redact: the one-shot form does not touch the held text. */
    method RedactAll(value: Text) returns (out: Text)
      requires Valid()
      ensures out == Redact(secrets, value)
    {
      if |secrets| == 0 {
        NothingToHide(value, true);
        FinalCallRedacts([], value);
        return value;
      }
      out := [];
      var rest := value;
      while rest != []
        invariant Redact(secrets, value) == out + Redact(secrets, rest)
        decreases |rest|
      {
        out, rest := out + Shown(secrets, rest), rest[Width(secrets, rest)..];
      }
    }

    /** The inner scan of RedactChunk for a secret that the held text could still become. */
    method WaitForLonger() returns (found: bool)
      ensures found == Waiting(secrets, pending)
    {
      found := false;
      for i := 0 to |secrets|
        invariant found <==> exists k :: 0 <= k < i && |pending| < |secrets[k]| && pending <= secrets[k]
      {
        if |pending| < |secrets[i]| && pending <= secrets[i] {
          return true;
        }
      }
    }

    /** The loop of RedactChunk over the held text. */
    method Scan(final: bool) returns (out: Text)
      requires AllUsable(secrets)
      modifies this`pending
      ensures out == Emitted(secrets, old(pending), final)
      ensures pending == Held(secrets, old(pending), final)
    {
      out := [];
      var waitForLonger := WaitForLonger();
      while pending != [] && (final || !waitForLonger)
        invariant waitForLonger == Waiting(secrets, pending)
        invariant Emitted(secrets, old(pending), final) == out + Emitted(secrets, pending, final)
        invariant Held(secrets, old(pending), final) == Held(secrets, pending, final)
        decreases |pending|
      {
        EmitStep(secrets, pending, final);
        Assoc(out, Shown(secrets, pending), Emitted(secrets, pending[Width(secrets, pending)..], final));
        out, pending := out + Shown(secrets, pending), pending[Width(secrets, pending)..];
        waitForLonger := WaitForLonger();
      }
    }

    /** RedactChunk: emit what is settled, hold back a possible beginning of a secret. */
    method RedactChunk(chunk: Text, final: bool) returns (out: Text)
      requires Valid()
      modifies this`pending
      ensures Valid()
      ensures out == Emitted(secrets, old(pending) + chunk, final)
      ensures pending == Held(secrets, old(pending) + chunk, final)
    {
      if |secrets| == 0 {
        assert pending + chunk == chunk;
        NothingToHide(chunk, final);
        return chunk;
      }
      pending := pending + chunk;
      out := Scan(final);
    }
  }

  lemma {:induction false} NothingToHide(value: Text, final: bool)
    ensures Emitted([], value, final) == value && Held([], value, final) == []
    decreases |value|
  {
    if value != [] {
      NothingToHide(value[1..], final);
    }
  }
}
