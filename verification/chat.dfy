/** The chat of `ChatInterface`: the keyword classifier and canned-reply
    generator, the greeting that opens an empty history, and the two
    appends a send causes (the user's message at once, the duck's reply
    after the typing delay). Message ids, clock readings and
    `Math.random()` draws are inputs. */
module Chat {
  import opened Wrappers
  import opened Types
  import opened Text
  import Random

  /** The reply when the session's duck is not in the catalog. */
  const LostVoice: string := "Quack! I seem to have lost my voice..."

  /** The four reply pools, in the order the classifier tries them. */
  datatype Category = Encouragement | Confusion | Success | Frustration

  function Rank(c: Category): nat {
    match c
    case Encouragement => 0
    case Confusion => 1
    case Success => 2
    case Frustration => 3
  }

  /** The trigger words of each pool. */
  function Keywords(c: Category): seq<string> {
    match c
    case Encouragement => ["help", "stuck", "error"]
    case Confusion => ["confused", "don't understand", "what"]
    case Success => ["works", "fixed", "solved"]
    case Frustration => ["frustrated", "angry", "hate"]
  }

  /** The lower-cased message contains one of the category's words. */
  predicate Mentions(message: string, c: Category) {
    exists i :: 0 <= i < |Keywords(c)| && Contains(Lower(message), Keywords(c)[i])
  }

  /** The same test, spelled out word by word as the source writes it. */
  predicate MentionsAnyOf(lower: string, c: Category) {
    var w := Keywords(c);
    Contains(lower, w[0]) || Contains(lower, w[1]) || Contains(lower, w[2])
  }

  lemma MentionsAnyOfIff(message: string, c: Category)
    ensures MentionsAnyOf(Lower(message), c) <==> Mentions(message, c)
  {
  }

  /** The classifier: the first category, in rank order, whose words the
      lower-cased message contains; `None` when it contains none of them. */
  function Classify(message: string): (r: Option<Category>)
    ensures r.Some? ==> Mentions(message, r.value)
    ensures r.Some? ==> forall c :: Rank(c) < Rank(r.value) ==> !Mentions(message, c)
    ensures r.None? <==> forall c :: !Mentions(message, c)
  {
    var lower := Lower(message);
    MentionsAnyOfIff(message, Encouragement);
    MentionsAnyOfIff(message, Confusion);
    MentionsAnyOfIff(message, Success);
    MentionsAnyOfIff(message, Frustration);
    if MentionsAnyOf(lower, Encouragement) then Some(Encouragement)
    else if MentionsAnyOf(lower, Confusion) then Some(Confusion)
    else if MentionsAnyOf(lower, Success) then Some(Success)
    else if MentionsAnyOf(lower, Frustration) then Some(Frustration)
    else None
  }

  /** Classification ignores case: lower-casing the message first changes nothing. */
  lemma ClassifyIgnoresCase(message: string)
    ensures Classify(Lower(message)) == Classify(message)
  {
    LowerIdempotent(message);
    assert forall c :: Mentions(Lower(message), c) <==> Mentions(message, c);
  }

  /** A message containing "help", "stuck" or "error", in any case, draws
      from the encouragement pool whatever else surrounds it. */
  lemma EncouragementWins(before: string, message: string, after: string)
    requires Mentions(message, Encouragement)
    ensures Classify(before + message + after) == Some(Encouragement)
  {
    var i :| 0 <= i < 3 && Contains(Lower(message), Keywords(Encouragement)[i]);
    LowerAppend(before + message, after);
    LowerAppend(before, message);
    ContainsInContext(Lower(before), Lower(message), Lower(after), Keywords(Encouragement)[i]);
    assert Contains(Lower(before + message + after), Keywords(Encouragement)[i]);
  }

  /** Text without upper-case letters is its own lower-case form. */
  lemma LowerOfLowerCase(s: string)
    requires forall i :: 0 <= i < |s| ==> !IsUpper(s[i])
    ensures Lower(s) == s
  {
  }

  /** `t` cannot occur in `s` when one of its characters never appears in `s`. */
  lemma NotContainsMissingChar(s: string, t: string, k: nat)
    requires k < |t| && forall i :: 0 <= i < |s| ==> s[i] != t[k]
    ensures !Contains(s, t)
  {
    forall i | 0 <= i <= |s| - |t|
      ensures !OccursAt(s, t, i)
    {
      assert s[i..i + |t|][k] == s[i + k];
    }
  }

  /** A trigger word alone, in lower case, mentions its category. */
  lemma KeywordMentions(c: Category, k: nat)
    requires k < 3
    ensures Mentions(Keywords(c)[k], c)
  {
    var w := Keywords(c)[k];
    LowerOfLowerCase(w);
    ContainsFromOccurrence(w, w, 0);
  }

  /** "error fixed" picks encouragement although it also says "fixed". */
  lemma ErrorFixedEncourages()
    ensures Classify("error fixed") == Some(Encouragement)
  {
    KeywordMentions(Encouragement, 2);
    EncouragementWins("", "error", " fixed");
    assert "" + "error" + " fixed" == "error fixed";
  }

  /** "I'm stuck on this error" picks encouragement. */
  lemma StuckOnErrorEncourages()
    ensures Classify("I'm " + "stuck" + " on this error") == Some(Encouragement)
  {
    KeywordMentions(Encouragement, 1);
    EncouragementWins("I'm ", "stuck", " on this error");
  }

  /** "what works" picks confusion although it also says "works". */
  lemma WhatWorksConfuses()
    ensures Classify("what works") == Some(Confusion)
  {
    var m := "what works";
    LowerOfLowerCase(m);
    ContainsFromOccurrence(m, "what", 0);
    assert Contains(Lower(m), Keywords(Confusion)[2]);
    NotContainsMissingChar(m, "help", 2);
    NotContainsMissingChar(m, "stuck", 2);
    NotContainsMissingChar(m, "error", 0);
    assert !Mentions(m, Encouragement);
  }

  // -----------------------------------------------------------------------
  // Reply generation

  function Pool(p: ResponsePatterns, c: Category): seq<string> {
    match c
    case Encouragement => p.encouragement
    case Confusion => p.confusion
    case Success => p.success
    case Frustration => p.frustration
  }

  /** A personality that can always answer: it has catch phrases and no
      reply pool is empty (so no index draw falls outside its list). */
  predicate Speaks(p: ChatPersonality) {
    && |p.catchPhrases| > 0
    && forall c :: |Pool(p.responsePatterns, c)| > 0
  }

  /** The `Math.random()` results one reply consumes: one pick from the
      keyword pool, or, for the fallback, a catch phrase for the first
      template, a catch phrase for the fourth, and the template choice. */
  datatype ReplyDraws = ReplyDraws(
    pick: Random.Draw,
    firstPhrase: Random.Draw,
    lastPhrase: Random.Draw,
    template: Random.Draw)

  /** The element of `xs` that a draw selects. */
  function Pick(xs: seq<string>, r: Random.Draw): (x: string)
    requires |xs| > 0
    ensures x in xs
  {
    xs[Random.Index(r, |xs|)]
  }

  /** Every element of a list no longer than the draw scale is picked by
      some `Math.random()` result. */
  lemma PickReachable(xs: seq<string>, i: nat)
    requires 0 < |xs| <= Random.Scale && i < |xs|
    ensures exists r: Random.Draw :: Pick(xs, r) == xs[i]
  {
    Random.IndexReachable(|xs|, i);
    var r: Random.Draw :| Random.Index(r, |xs|) == i;
    assert Pick(xs, r) == xs[i];
  }

  /** The four fallback replies. */
  function Fallbacks(p: ChatPersonality, d: ReplyDraws): (fs: seq<string>)
    requires |p.catchPhrases| > 0
    ensures |fs| == 4
    ensures Contains(fs[0], p.debuggingStyle) && Contains(fs[1], p.debuggingStyle)
            && Contains(fs[2], p.debuggingStyle)
    ensures StartsWith(fs[0], Pick(p.catchPhrases, d.firstPhrase)) && fs[3] in p.catchPhrases
  {
    var style := p.debuggingStyle;
    var first := Pick(p.catchPhrases, d.firstPhrase);
    var f0 := first + "! Let's approach this with my " + style + " style.";
    var f1 := "Interesting! As someone who's " + style + ", I think we should explore this further.";
    var f2 := "That's a great question! My " + style + " approach suggests we break this down.";
    ContainsPart(first + "! Let's approach this with my ", style, " style.");
    ContainsPart("Interesting! As someone who's ", style, ", I think we should explore this further.");
    ContainsPart("That's a great question! My ", style, " approach suggests we break this down.");
    assert f0[..|first|] == first;
    [f0, f1, f2, Pick(p.catchPhrases, d.lastPhrase)]
  }

  lemma ContainsPart(a: string, b: string, c: string)
    ensures Contains(a + b + c, b)
  {
    assert (a + b + c)[|a|..|a| + |b|] == b;
    ContainsFromOccurrence(a + b + c, b, |a|);
  }

  /** `generateDuckResponse` for a duck with personality `p`: a keyword
      message is answered from its category's pool, anything else by one of
      the four fallbacks. */
  function Respond(p: ChatPersonality, message: string, d: ReplyDraws): (r: string)
    requires Speaks(p)
    ensures Classify(message).Some? ==> r in Pool(p.responsePatterns, Classify(message).value)
    ensures Classify(message).None? ==> r in Fallbacks(p, d)
  {
    match Classify(message)
    case Some(c) => Pick(Pool(p.responsePatterns, c), d.pick)
    case None =>
      var fs := Fallbacks(p, d);
      fs[Random.Index(d.template, 4)]
  }

  /** Every reply in the matched category's pool is given for some draw. */
  lemma PoolReplyReachable(p: ChatPersonality, message: string, d: ReplyDraws, i: nat)
    requires Speaks(p) && Classify(message).Some?
    requires i < |Pool(p.responsePatterns, Classify(message).value)| <= Random.Scale
    ensures exists r: Random.Draw :: Respond(p, message, d.(pick := r)) == Pool(p.responsePatterns, Classify(message).value)[i]
  {
    var xs := Pool(p.responsePatterns, Classify(message).value);
    PickReachable(xs, i);
    var r: Random.Draw :| Pick(xs, r) == xs[i];
    assert Respond(p, message, d.(pick := r)) == xs[i];
  }

  /** Each of the four fallbacks is the reply for some template draw; the
      template draw does not change the fallbacks themselves. */
  lemma FallbackReachable(p: ChatPersonality, message: string, d: ReplyDraws, k: nat)
    requires Speaks(p) && Classify(message).None? && k < 4
    ensures exists r: Random.Draw :: Respond(p, message, d.(template := r)) == Fallbacks(p, d)[k]
  {
    Random.IndexReachable(4, k);
    var r: Random.Draw :| Random.Index(r, 4) == k;
    assert Fallbacks(p, d.(template := r)) == Fallbacks(p, d);
    assert Respond(p, message, d.(template := r)) == Fallbacks(p, d)[k];
  }

  /** `ducks.find(d => d.id === id)`: the first duck with the id. */
  function FindDuck(ducks: seq<Duck>, id: string): (r: Option<Duck>)
    ensures r.Some? ==> r.value in ducks && r.value.id == id
    ensures r.None? <==> forall i :: 0 <= i < |ducks| ==> ducks[i].id != id
    ensures r.Some? ==> exists i :: 0 <= i < |ducks| && ducks[i] == r.value
                          && forall j :: 0 <= j < i ==> ducks[j].id != id
    decreases |ducks|
  {
    if |ducks| == 0 then None
    else if ducks[0].id == id then Some(ducks[0])
    else
      var r := FindDuck(ducks[1..], id);
      if r.Some? then
        var i :| 0 <= i < |ducks[1..]| && ducks[1..][i] == r.value
                 && forall j :: 0 <= j < i ==> ducks[1..][j].id != id;
        assert ducks[i + 1] == r.value;
        r
      else r
  }

  /** Every duck of a catalog can answer. */
  predicate AllSpeak(ducks: seq<Duck>) {
    forall i :: 0 <= i < |ducks| ==> Speaks(ducks[i].chatPersonality)
  }

  /** The reply of the session's duck, or the fixed lost-voice line when the
      session names a duck the catalog does not hold. */
  function GenerateReply(ducks: seq<Duck>, duckId: string, message: string, d: ReplyDraws): (r: string)
    requires AllSpeak(ducks)
    ensures FindDuck(ducks, duckId).None? ==> r == LostVoice
    ensures FindDuck(ducks, duckId).Some? ==>
      r == Respond(FindDuck(ducks, duckId).value.chatPersonality, message, d)
  {
    match FindDuck(ducks, duckId)
    case None => LostVoice
    case Some(duck) => Respond(duck.chatPersonality, message, d)
  }

  /** Every line a personality can say is non-empty. */
  predicate NonEmptyLines(p: ChatPersonality) {
    && (forall i :: 0 <= i < |p.catchPhrases| ==> p.catchPhrases[i] != "")
    && forall c, i :: 0 <= i < |Pool(p.responsePatterns, c)| ==> Pool(p.responsePatterns, c)[i] != ""
  }

  /** A personality without empty lines never produces an empty reply. */
  lemma ReplyNonEmpty(p: ChatPersonality, message: string, d: ReplyDraws)
    requires Speaks(p) && NonEmptyLines(p)
    ensures Respond(p, message, d) != ""
  {
    var r := Respond(p, message, d);
    if Classify(message).Some? {
      var pool := Pool(p.responsePatterns, Classify(message).value);
      var i :| 0 <= i < |pool| && pool[i] == r;
    } else {
      var fs := Fallbacks(p, d);
      var i :| 0 <= i < 4 && fs[i] == r;
      if i < 3 {
        assert |fs[i]| >= |"! Let's approach this with my "|;
      } else {
        var j :| 0 <= j < |p.catchPhrases| && p.catchPhrases[j] == r;
      }
    }
  }

  // -----------------------------------------------------------------------
  // History

  /** Opening the chat: an empty history of a session whose duck exists
      becomes exactly the duck's greeting; otherwise nothing changes. */
  function SeedGreeting(s: Session, ducks: seq<Duck>, id: string, now: Time): (r: Session)
    ensures |History(s)| == 0 && FindDuck(ducks, s.duckId).Some? ==>
      r == s.(chatHistory := Some([ChatMessage(id, FromDuck,
             FindDuck(ducks, s.duckId).value.chatPersonality.greeting, now, Some(GreetingTag))]))
    ensures |History(s)| > 0 || FindDuck(ducks, s.duckId).None? ==> r == s
  {
    match FindDuck(ducks, s.duckId)
    case Some(duck) =>
      if |History(s)| == 0 then
        var greeting := ChatMessage(id, FromDuck, duck.chatPersonality.greeting, now, Some(GreetingTag));
        s.(chatHistory := Some([greeting]))
      else s
    case None => s
  }

  /** The chat box: the text being typed and whether a reply is pending. */
  datatype ChatView = ChatView(message: string, isTyping: bool)

  /** What the deferred reply closes over when a message is sent: the
      session as it was, the history with the user's message, and the raw
      (untrimmed) text the reply is generated from. */
  datatype PendingReply = PendingReply(session: Session, history: seq<ChatMessage>, message: string)

  datatype SendOutcome = SendOutcome(session: Session, view: ChatView, pending: Option<PendingReply>)

  /** `sendMessage`: a blank message, or a send while the duck is typing,
      changes nothing; otherwise the trimmed text is appended as a user
      message, the box is cleared and the duck starts typing. */
  function Send(s: Session, v: ChatView, id: string, now: Time): (r: SendOutcome)
    ensures (AllWhite(v.message) || v.isTyping) ==> r == SendOutcome(s, v, None)
    ensures !(AllWhite(v.message) || v.isTyping) ==>
      && History(r.session) == History(s) + [ChatMessage(id, FromUser, Trim(v.message), now, None)]
      && r.session.(chatHistory := s.chatHistory) == s
      && Trim(v.message) != []
      && r.view == ChatView("", true)
      && r.pending == Some(PendingReply(s, History(r.session), v.message))
  {
    TrimEmptyIff(v.message);
    if Trim(v.message) == [] || v.isTyping then SendOutcome(s, v, None)
    else
      var user := ChatMessage(id, FromUser, Trim(v.message), now, None);
      var history := History(s) + [user];
      SendOutcome(s.(chatHistory := Some(history)), ChatView("", true), Some(PendingReply(s, history, v.message)))
  }

  /** The typing delay's callback: the history the send produced gains the
      duck's reply, tagged `debugging`, and the duck stops typing. */
  function Deliver(p: PendingReply, v: ChatView, ducks: seq<Duck>, d: ReplyDraws, id: string, now: Time)
    : (r: (Session, ChatView))
    requires AllSpeak(ducks)
    ensures History(r.0) == p.history + [ChatMessage(id, FromDuck,
              GenerateReply(ducks, p.session.duckId, p.message, d), now, Some(DebuggingTag))]
    ensures r.0.(chatHistory := p.session.chatHistory) == p.session
    ensures r.1 == v.(isTyping := false)
  {
    var reply := ChatMessage(id, FromDuck, GenerateReply(ducks, p.session.duckId, p.message, d), now, Some(DebuggingTag));
    (p.session.(chatHistory := Some(p.history + [reply])), v.(isTyping := false))
  }

  /** One exchange as the user drives it: type `message`, send it at
      `sentAt`, and receive the reply at `repliedAt`. */
  datatype Turn = Turn(
    message: string,
    userId: string,
    sentAt: Time,
    replyId: string,
    repliedAt: Time,
    draws: ReplyDraws)

  /** One turn from an idle chat box: send, then, if the send went through,
      deliver the reply. */
  function Exchange(s: Session, ducks: seq<Duck>, t: Turn): Session
    requires AllSpeak(ducks)
  {
    var sent := Send(s, ChatView(t.message, false), t.userId, t.sentAt);
    if sent.pending.Some? then Deliver(sent.pending.value, sent.view, ducks, t.draws, t.replyId, t.repliedAt).0
    else sent.session
  }

  /** A non-blank turn appends exactly a user message and then a duck reply. */
  lemma ExchangeAppends(s: Session, ducks: seq<Duck>, t: Turn)
    requires AllSpeak(ducks) && !AllWhite(t.message)
    ensures var h := History(Exchange(s, ducks, t));
      && |h| == |History(s)| + 2
      && h[..|History(s)|] == History(s)
      && h[|History(s)|].sender == FromUser && h[|History(s)|].content == Trim(t.message)
      && h[|History(s)| + 1].sender == FromDuck
  {
    var sent := Send(s, ChatView(t.message, false), t.userId, t.sentAt);
    var user := ChatMessage(t.userId, FromUser, Trim(t.message), t.sentAt, None);
    assert sent.pending == Some(PendingReply(s, History(s) + [user], t.message));
    var out := Deliver(sent.pending.value, sent.view, ducks, t.draws, t.replyId, t.repliedAt);
    assert Exchange(s, ducks, t) == out.0;
    var reply := ChatMessage(t.replyId, FromDuck,
      GenerateReply(ducks, s.duckId, t.message, t.draws), t.repliedAt, Some(DebuggingTag));
    assert History(out.0) == History(s) + [user] + [reply];
    AppendTwo(History(s), user, reply);
  }

  /** Two messages appended after `h`, read back by position. */
  lemma AppendTwo(h: seq<ChatMessage>, first: ChatMessage, second: ChatMessage)
    ensures var g := h + [first] + [second];
      |g| == |h| + 2 && g[..|h|] == h && g[|h|] == first && g[|h| + 1] == second
  {
  }

  /** Runs the turns one after another; a blank turn is dropped by `Send`
      and leaves no trace. */
  function Converse(s: Session, ducks: seq<Duck>, turns: seq<Turn>): Session
    requires AllSpeak(ducks)
    decreases |turns|
  {
    if |turns| == 0 then s else Converse(Exchange(s, ducks, turns[0]), ducks, turns[1..])
  }

  predicate NoBlankTurns(turns: seq<Turn>) {
    forall i :: 0 <= i < |turns| ==> !AllWhite(turns[i].message)
  }

  lemma NoBlankTail(turns: seq<Turn>)
    requires |turns| > 0 && NoBlankTurns(turns)
    ensures !AllWhite(turns[0].message) && NoBlankTurns(turns[1..])
  {
    assert forall i :: 0 <= i < |turns[1..]| ==> turns[1..][i] == turns[i + 1];
  }

  /** From index `n` on, `h` holds `m` pairs of a user message followed by
      a duck message. */
  predicate Alternates(h: seq<ChatMessage>, n: nat, m: nat) {
    n + 2 * m <= |h|
    && forall i :: 0 <= i < m ==> h[n + 2 * i].sender == FromUser && h[n + 2 * i + 1].sender == FromDuck
  }

  lemma AlternatesCons(h: seq<ChatMessage>, n: nat, m: nat)
    requires n + 2 <= |h| && h[n].sender == FromUser && h[n + 1].sender == FromDuck
    requires Alternates(h, n + 2, m)
    ensures Alternates(h, n, m + 1)
  {
    forall i | 0 <= i < m + 1
      ensures h[n + 2 * i].sender == FromUser && h[n + 2 * i + 1].sender == FromDuck
    {
      if i > 0 {
        assert n + 2 * i == (n + 2) + 2 * (i - 1);
      }
    }
  }

  /** A history that extends `hn`, whose last two messages are a user
      message and a reply, by `m` more pairs holds `m + 1` pairs after
      position `n`. */
  lemma ExtendAlternation(h: seq<ChatMessage>, hn: seq<ChatMessage>, n: nat, m: nat)
    requires |hn| == n + 2 && hn[n].sender == FromUser && hn[n + 1].sender == FromDuck
    requires |h| == |hn| + 2 * m && h[..|hn|] == hn && Alternates(h, |hn|, m)
    ensures |h| == n + 2 * (m + 1) && h[..n] == hn[..n] && Alternates(h, n, m + 1)
  {
    assert h[..n] == h[..|hn|][..n];
    assert h[n] == h[..|hn|][n] && h[n + 1] == h[..|hn|][n + 1];
    AlternatesCons(h, n, m);
  }

  /** The history is append-only: `n` non-blank exchanges add exactly `2n`
      messages, a user message and the duck's reply each time, and keep
      everything before them. */
  lemma {:induction false} ConverseAppends(s: Session, ducks: seq<Duck>, turns: seq<Turn>)
    requires AllSpeak(ducks) && NoBlankTurns(turns)
    ensures |History(Converse(s, ducks, turns))| == |History(s)| + 2 * |turns|
    ensures History(Converse(s, ducks, turns))[..|History(s)|] == History(s)
    ensures Alternates(History(Converse(s, ducks, turns)), |History(s)|, |turns|)
    decreases |turns|
  {
    if |turns| > 0 {
      NoBlankTail(turns);
      var next := Exchange(s, ducks, turns[0]);
      ExchangeAppends(s, ducks, turns[0]);
      ConverseAppends(next, ducks, turns[1..]);
      assert Converse(s, ducks, turns) == Converse(next, ducks, turns[1..]);
      ExtendAlternation(History(Converse(next, ducks, turns[1..])), History(next), |History(s)|, |turns| - 1);
    }
  }

  /** Opening an empty chat and then exchanging `n` messages leaves a
      history of `2n + 1` messages, led by the greeting. */
  lemma GreetingThenTurns(s: Session, ducks: seq<Duck>, id: string, now: Time, turns: seq<Turn>)
    requires AllSpeak(ducks) && NoBlankTurns(turns)
    requires |History(s)| == 0 && FindDuck(ducks, s.duckId).Some?
    ensures var h := History(Converse(SeedGreeting(s, ducks, id, now), ducks, turns));
      |h| == 2 * |turns| + 1 && h[0].tag == Some(GreetingTag) && h[0].sender == FromDuck
  {
    var g := SeedGreeting(s, ducks, id, now);
    ConverseAppends(g, ducks, turns);
    assert History(Converse(g, ducks, turns))[0] == History(Converse(g, ducks, turns))[..1][0];
  }
}
