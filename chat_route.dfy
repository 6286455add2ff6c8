/**
 * `POST /api/chat`: the assistant's command router. The lower-cased message
 * picks one of three branches (list the leads with a good e-mail, queue
 * e-mails, or ask the completion service); the branch builds the reply text
 * and the action, and both chat messages are stored.
 *
 * The lead table is a sequence in storage order, the completion service's
 * answer is a parameter, and a call that throws is a `Failure` parameter
 * naming the step that throws.
 */
module ChatRoute {
  import opened Text
  import opened Lists

  // ---------------------------------------------------------------------------
  // Routing
  // ---------------------------------------------------------------------------

  datatype Command = GoodEmail | SendEmail | Fallback

  /** The good-email test, on the lower-cased message. */
  predicate AsksGoodEmail(lower: string)
  {
    Contains(lower, "correo") && (Contains(lower, "bueno") || Contains(lower, "buenos"))
  }

  /** The send test, on the lower-cased message. */
  predicate AsksSend(lower: string)
  {
    Contains(lower, "mandar") || Contains(lower, "enviar") || Contains(lower, "manda") || Contains(lower, "envia")
  }

  /** The branch `POST` takes for `message`. */
  function Route(message: string): Command
  {
    var lower := ToLower(message);
    if AsksGoodEmail(lower) then GoodEmail
    else if AsksSend(lower) then SendEmail
    else Fallback
  }

  /** The good-email branch is taken exactly when the message mentions `correo` and `bueno`. */
  lemma GoodEmailIff(message: string)
    ensures var lower := ToLower(message);
      Route(message) == GoodEmail <==> Contains(lower, "correo") && Contains(lower, "bueno")
  {
    var lower := ToLower(message);
    if Contains(lower, "buenos") {
      assert "buenos" == "bueno" + "s";
      ContainsPrefixOfNeedle(lower, "bueno", "s");
    }
  }

  /** The send branch is taken exactly when the good-email one is not and the message mentions `manda` or `envia`. */
  lemma SendIff(message: string)
    ensures var lower := ToLower(message);
      Route(message) == SendEmail <==>
        !AsksGoodEmail(lower) && (Contains(lower, "manda") || Contains(lower, "envia"))
  {
    var lower := ToLower(message);
    if Contains(lower, "mandar") {
      assert "mandar" == "manda" + "r";
      ContainsPrefixOfNeedle(lower, "manda", "r");
    }
    if Contains(lower, "enviar") {
      assert "enviar" == "envia" + "r";
      ContainsPrefixOfNeedle(lower, "envia", "r");
    }
  }

  /** Lower-casing twice is lower-casing once. */
  lemma ToLowerIdempotent(s: string)
    ensures ToLower(ToLower(s)) == ToLower(s)
  {
    var once := ToLower(s);
    forall k | 0 <= k < |s| ensures LowerChar(once[k]) == once[k] {
    }
  }

  /** Only the lower-cased message matters: a message and its lower-case form take the same branch. */
  lemma RouteIgnoresCase(message: string)
    ensures Route(ToLower(message)) == Route(message)
  {
    ToLowerIdempotent(message);
  }

  // ---------------------------------------------------------------------------
  // The lead store and its queries
  // ---------------------------------------------------------------------------

  /** A stored lead, with its nullable e-mail. */
  datatype DbLead = DbLead(id: string, nombre: string, industria: string, email: Option<string>, score: int, estado: string)

  /**
   * The `where` clause: among `leadIds` when given, with an e-mail when
   * `needEmail`, and with at least `minScore` when given.
   */
  predicate Matches(l: DbLead, leadIds: Option<seq<string>>, needEmail: bool, minScore: Option<int>)
  {
    (leadIds.None? || l.id in leadIds.value)
    && (!needEmail || l.email.Some?)
    && (minScore.None? || l.score >= minScore.value)
  }

  /** `findMany({ where, take })`, in storage order. */
  function FindMany(store: seq<DbLead>, leadIds: Option<seq<string>>, needEmail: bool, minScore: Option<int>, take: nat): (found: seq<DbLead>)
    ensures |found| <= take
    ensures forall k :: 0 <= k < |found| ==> found[k] in store && Matches(found[k], leadIds, needEmail, minScore)
  {
    var kept := Filter(store, l => Matches(l, leadIds, needEmail, minScore));
    var found := Take(kept, take);
    assert forall k :: 0 <= k < |found| ==> found[k] in kept;
    found
  }

  /** The query of the good-email branch: with an e-mail, score at least 70, at most ten. */
  function GoodEmailLeads(store: seq<DbLead>, leadIds: Option<seq<string>>): seq<DbLead>
  {
    FindMany(store, leadIds, true, Some(70), 10)
  }

  /** The query of the send branch: with an e-mail, at most twenty. */
  function SendLeads(store: seq<DbLead>, leadIds: Option<seq<string>>): seq<DbLead>
  {
    FindMany(store, leadIds, true, None, 20)
  }

  /** The ids of the leads, in order. */
  function LeadIds(leads: seq<DbLead>): (ids: seq<string>)
    ensures |ids| == |leads|
    ensures forall k :: 0 <= k < |leads| ==> ids[k] == leads[k].id
  {
    seq(|leads|, k requires 0 <= k < |leads| => leads[k].id)
  }

  // ---------------------------------------------------------------------------
  // The good-email reply
  // ---------------------------------------------------------------------------

  /** A nullable string in a template literal. */
  function EmailText(email: Option<string>): string
  {
    if email.Some? then email.value else "null"
  }

  /** The first line of the reply, before its blank line. */
  function HeaderLine(n: nat): string
  {
    "Encontr\U{00E9} " + NatToString(n) + " leads con correo v\U{00E1}lido y score alto:"
  }

  /** Line `idx` of the list, numbered from 1. */
  function LeadLine(idx: nat, l: DbLead): string
  {
    NatToString(idx + 1) + ". " + l.nombre + " - " + EmailText(l.email) + " (Score: " + IntToString(l.score) + ")"
  }

  function LeadLines(leads: seq<DbLead>): (lines: seq<string>)
    ensures |lines| == |leads|
  {
    if leads == [] then [] else LeadLines(leads[..|leads| - 1]) + [LeadLine(|leads| - 1, leads[|leads| - 1])]
  }

  /** Line k of the list is lead k's line. */
  lemma {:induction false} LeadLinesAt(leads: seq<DbLead>, k: nat)
    requires k < |leads|
    ensures LeadLines(leads)[k] == LeadLine(k, leads[k])
  {
    if k < |leads| - 1 {
      LeadLinesAt(leads[..|leads| - 1], k);
    }
  }

  /**
   * The reply text of the good-email branch: the header and a blank line,
   * then one line per lead, each ended by a newline.
   */
  method ShowLeadsResponse(leads: seq<DbLead>) returns (response: string)
    ensures response == HeaderLine(|leads|) + "\n\n" + Terminated(LeadLines(leads), '\n')
  {
    response := HeaderLine(|leads|) + "\n\n";
    ghost var head := response;
    for idx := 0 to |leads|
      invariant response == head + Terminated(LeadLines(leads[..idx]), '\n')
    {
      LeadLinesStep(head, leads, idx);
      response := response + (LeadLine(idx, leads[idx]) + "\n");
    }
    assert leads[..|leads|] == leads;
  }

  /** Appending lead `idx`'s line extends the text by that line and a newline. */
  lemma LeadLinesStep(head: string, leads: seq<DbLead>, idx: nat)
    requires idx < |leads|
    ensures head + Terminated(LeadLines(leads[..idx + 1]), '\n')
      == head + Terminated(LeadLines(leads[..idx]), '\n') + (LeadLine(idx, leads[idx]) + "\n")
  {
    var line := LeadLine(idx, leads[idx]);
    var before := LeadLines(leads[..idx]);
    assert LeadLines(leads[..idx + 1]) == before + [line] by {
      assert leads[..idx + 1][..idx] == leads[..idx];
    }
    TerminatedSnoc(before, line, '\n');
    AppendAssoc(head, Terminated(before, '\n'), line + "\n");
  }

  /** Ending one more line. */
  lemma TerminatedSnoc(lines: seq<string>, x: string, sep: char)
    ensures Terminated(lines + [x], sep) == Terminated(lines, sep) + (x + [sep])
  {
    assert (lines + [x])[..|lines|] == lines;
  }

  /** No piece of text between the pieces of a lead line holds a newline. */
  predicate Printable(l: DbLead)
  {
    '\n' !in l.nombre && '\n' !in EmailText(l.email)
  }

  /** Decimal text has no newline. */
  lemma NumberHasNoNewline(n: int)
    ensures '\n' !in IntToString(n)
  {
    var r := IntToString(n);
    if n >= 0 {
      forall k | 0 <= k < |r| ensures r[k] != '\n' {
        assert IsDigit(r[k]);
      }
    } else {
      forall k | 1 <= k < |r| ensures r[k] != '\n' {
        assert r[k] == r[1..][k - 1];
        assert IsDigit(NatToString(-n)[k - 1]);
      }
    }
  }

  /** A concatenation has no newline when its parts have none. */
  lemma ConcatNoNewline(a: string, b: string)
    requires '\n' !in a && '\n' !in b
    ensures '\n' !in a + b
  {
    forall k | 0 <= k < |a + b| ensures (a + b)[k] != '\n' {
      if k < |a| {
        assert (a + b)[k] == a[k];
      } else {
        assert (a + b)[k] == b[k - |a|];
      }
    }
  }

  lemma LeadLineNoNewline(idx: nat, l: DbLead)
    requires Printable(l)
    ensures '\n' !in LeadLine(idx, l)
  {
    NumberHasNoNewline(idx + 1);
    NumberHasNoNewline(l.score);
    var a := NatToString(idx + 1);
    var sep1: string := ". ";
    var sep2: string := " - ";
    var sep3: string := " (Score: ";
    var close: string := ")";
    assert '\n' !in sep1 && '\n' !in sep2 && '\n' !in sep3 && '\n' !in close;
    ConcatNoNewline(a, sep1);
    ConcatNoNewline(a + sep1, l.nombre);
    ConcatNoNewline(a + sep1 + l.nombre, sep2);
    ConcatNoNewline(a + sep1 + l.nombre + sep2, EmailText(l.email));
    ConcatNoNewline(a + sep1 + l.nombre + sep2 + EmailText(l.email), sep3);
    ConcatNoNewline(a + sep1 + l.nombre + sep2 + EmailText(l.email) + sep3, IntToString(l.score));
    ConcatNoNewline(a + sep1 + l.nombre + sep2 + EmailText(l.email) + sep3 + IntToString(l.score), close);
  }

  lemma HeaderNoNewline(n: nat)
    ensures '\n' !in HeaderLine(n)
  {
    NumberHasNoNewline(n);
    var before: string := "Encontr\U{00E9} ";
    var after: string := " leads con correo v\U{00E1}lido y score alto:";
    assert '\n' !in before && '\n' !in after;
    ConcatNoNewline(before, NatToString(n));
    ConcatNoNewline(before + NatToString(n), after);
  }

  /** A header, a blank line and newline-ended lines split back into those lines. */
  lemma SplitHeaderBlankLines(h: string, lines: seq<string>, sep: char)
    requires sep !in h
    requires forall k :: 0 <= k < |lines| ==> sep !in lines[k]
    ensures Split(h + [sep, sep] + Terminated(lines, sep), sep) == [h, []] + lines + [[]]
  {
    var parts := [h, []] + lines + [[]];
    JoinHeaderBlankLines(h, lines, sep);
    forall k | 0 <= k < |parts| ensures sep !in parts[k] {
      if 2 <= k < |parts| - 1 {
        assert parts[k] == lines[k - 2];
      }
    }
    SplitJoin(parts, sep);
  }

  /** The text of a header, a blank line and newline-ended lines is the join of those lines. */
  lemma JoinHeaderBlankLines(h: string, lines: seq<string>, sep: char)
    ensures Join([h, []] + lines + [[]], sep) == h + [sep, sep] + Terminated(lines, sep)
  {
    var parts := [h, []] + lines + [[]];
    JoinIsTerminatedPlusLast(parts, sep);
    assert parts[..|parts| - 1] == [h] + ([[]] + lines);
    TerminatedCons(h, [[]] + lines, sep);
    TerminatedCons([], lines, sep);
    assert Terminated([[]] + lines, sep) == [sep] + Terminated(lines, sep);
    assert parts[|parts| - 1] == [];
    assert h + [sep] + [sep] == h + [sep, sep];
  }

  /** No line of the list holds a newline. */
  lemma LeadLinesNoNewline(leads: seq<DbLead>)
    requires forall k :: 0 <= k < |leads| ==> Printable(leads[k])
    ensures forall k :: 0 <= k < |leads| ==> '\n' !in LeadLines(leads)[k]
  {
    forall k | 0 <= k < |leads| ensures '\n' !in LeadLines(leads)[k] {
      LeadLinesAt(leads, k);
      LeadLineNoNewline(k, leads[k]);
    }
  }

  /**
   * Read back line by line, the reply is the header, a blank line, lead k's
   * line as line k + 2, and an empty remainder after the final newline.
   */
  lemma ResponseLines(leads: seq<DbLead>)
    requires forall k :: 0 <= k < |leads| ==> Printable(leads[k])
    ensures Split(HeaderLine(|leads|) + "\n\n" + Terminated(LeadLines(leads), '\n'), '\n')
            == [HeaderLine(|leads|), ""] + LeadLines(leads) + [""]
  {
    HeaderNoNewline(|leads|);
    LeadLinesNoNewline(leads);
    SplitHeaderBlankLines(HeaderLine(|leads|), LeadLines(leads), '\n');
    assert "\n\n" == ['\n', '\n'];
  }

  // ---------------------------------------------------------------------------
  // The send reply
  // ---------------------------------------------------------------------------

  /** A queued e-mail. */
  datatype Contact = Contact(leadId: string, email: string, nombre: string, asunto: string, mensaje: string, enviado: bool)

  /** The e-mail prepared for one lead. */
  function ContactFor(l: DbLead): Contact
    requires l.email.Some?
  {
    Contact(
      l.id, l.email.value, l.nombre,
      "Oportunidad de negocio - " + l.industria,
      "Hola " + l.nombre + ",\n\nNos interesa contactarte para una oportunidad de negocio relacionada con "
      + l.industria + ".\n\nSaludos,\nSapiens Laboratories",
      false)
  }

  /** One contact per lead, in order, none of them sent yet. */
  function ContactsFor(leads: seq<DbLead>): (contacts: seq<Contact>)
    requires forall k :: 0 <= k < |leads| ==> leads[k].email.Some?
    ensures |contacts| == |leads|
    ensures forall k :: 0 <= k < |leads| ==>
      contacts[k].leadId == leads[k].id && contacts[k].email == leads[k].email.value && !contacts[k].enviado
  {
    seq(|leads|, k requires 0 <= k < |leads| => ContactFor(leads[k]))
  }

  function QueuedResponse(n: nat): string
  {
    "He preparado " + NatToString(n) + " correos para enviar. Los contactos est\U{00E1}n listos en la cola de env\U{00ED}o."
  }

  // ---------------------------------------------------------------------------
  // POST
  // ---------------------------------------------------------------------------

  datatype Action = ShowLeads(leads: seq<string>) | EmailsQueued(count: nat)

  /** A stored message's metadata: the JSON text of `{leadIds}` or of the action. */
  datatype Metadata = LeadIdsMeta(leadIds: seq<string>) | ActionMeta(action: Action)

  datatype ChatMessage = ChatMessage(role: string, content: string, metadata: Option<Metadata>)

  datatype ChatBody = ChatBody(message: string, leadIds: Option<seq<string>>)

  /** The awaited call that throws. */
  datatype Step = ReadBody | SaveUserMessage | QueryLeads | CreateContacts | AskCompletion | SaveReply

  datatype Failure = Failure(step: Step, message: string)

  datatype Reply =
    | Ok(response: string, action: Option<Action>, messageId: string)
    | ServerError(status: int, error: string, details: string)

  function ErrorReply(f: Failure): Reply
  {
    ServerError(500, "Error al procesar el mensaje", f.message)
  }

  /** Whether `failure` names `step` as the call that throws. */
  predicate Throws(failure: Option<Failure>, step: Step)
  {
    failure.Some? && failure.value.step == step
  }

  /** Whether a failure at `step` is met on the way through the branch of `body`. */
  predicate Reaches(body: ChatBody, store: seq<DbLead>, step: Step)
  {
    match step
    case ReadBody => true
    case SaveUserMessage => true
    case QueryLeads => Route(body.message) != Fallback || body.leadIds.Some?
    case CreateContacts => Route(body.message) == SendEmail && SendLeads(store, body.leadIds) != []
    case AskCompletion => Route(body.message) == Fallback
    case SaveReply => true
  }

  /** The metadata of the user's message: `{leadIds}` when given, else none. */
  function UserMetadata(leadIds: Option<seq<string>>): (m: Option<Metadata>)
    ensures m.Some? <==> leadIds.Some?
  {
    if leadIds.Some? then Some(LeadIdsMeta(leadIds.value)) else None
  }

  /** The good-email branch: the query, then the list of the leads found. */
  method AnswerGoodEmail(store: seq<DbLead>, leadIds: Option<seq<string>>, failure: Option<Failure>)
    returns (thrown: bool, response: string, action: Action)
    ensures thrown <==> Throws(failure, QueryLeads)
    ensures !thrown ==>
      var found := GoodEmailLeads(store, leadIds);
      action == ShowLeads(LeadIds(found))
      && response == HeaderLine(|found|) + "\n\n" + Terminated(LeadLines(found), '\n')
  {
    response, action := "", EmailsQueued(0);
    if Throws(failure, QueryLeads) {
      return true, response, action;
    }
    var found := GoodEmailLeads(store, leadIds);
    thrown := false;
    response := ShowLeadsResponse(found);
    action := ShowLeads(LeadIds(found));
  }

  /** The send branch: the query, one contact per lead found, then the count queued. */
  method AnswerSend(store: seq<DbLead>, leadIds: Option<seq<string>>, failure: Option<Failure>)
    returns (thrown: bool, response: string, action: Action, contacts: seq<Contact>)
    ensures thrown <==> Throws(failure, QueryLeads) || (Throws(failure, CreateContacts) && SendLeads(store, leadIds) != [])
    ensures thrown ==> contacts == []
    ensures !thrown ==>
      contacts == ContactsFor(SendLeads(store, leadIds))
      && action == EmailsQueued(|contacts|) && response == QueuedResponse(|contacts|)
  {
    response, action, contacts := "", EmailsQueued(0), [];
    if Throws(failure, QueryLeads) {
      return true, response, action, contacts;
    }
    var found := SendLeads(store, leadIds);
    if Throws(failure, CreateContacts) && found != [] {
      return true, response, action, contacts;
    }
    thrown := false;
    contacts := ContactsFor(found);
    response := QueuedResponse(|contacts|);
    action := EmailsQueued(|contacts|);
  }

  /** The text sent when the completion service answers nothing. */
  const NoAnswer: string := "No pude procesar tu mensaje."

  /**
   * The fallback branch: the context query when lead ids are given, then the
   * completion service's text, or `NoAnswer` when it is empty or missing.
   */
  method AnswerFallback(leadIds: Option<seq<string>>, completion: Option<string>, failure: Option<Failure>)
    returns (thrown: bool, response: string)
    ensures thrown <==> (Throws(failure, QueryLeads) && leadIds.Some?) || Throws(failure, AskCompletion)
    ensures !thrown ==> response == (if completion.Some? && completion.value != "" then completion.value else NoAnswer)
  {
    response := "";
    if Throws(failure, QueryLeads) && leadIds.Some? {
      return true, response;
    }
    if Throws(failure, AskCompletion) {
      return true, response;
    }
    thrown := false;
    response := if completion.Some? && completion.value != "" then completion.value else NoAnswer;
  }

  /**
   * `POST(request)`. `completion` is the completion service's text, `None`
   * when it has none; `messageId` is the id the store gives the user's
   * message; `failure`, when given, is the call that throws and its message.
   * Returns the reply, the chat messages stored and the contacts created.
   */
  method Post(body: ChatBody, store: seq<DbLead>, completion: Option<string>, messageId: string, failure: Option<Failure>)
    returns (reply: Reply, saved: seq<ChatMessage>, contacts: seq<Contact>)
    ensures failure.Some? && Reaches(body, store, failure.value.step) ==>
      && reply == ErrorReply(failure.value)
      && saved == (if failure.value.step == ReadBody || failure.value.step == SaveUserMessage then []
                   else [ChatMessage("user", body.message, UserMetadata(body.leadIds))])
      && contacts == (if failure.value.step == SaveReply && Route(body.message) == SendEmail
                      then ContactsFor(SendLeads(store, body.leadIds)) else [])
    ensures failure.None? || !Reaches(body, store, failure.value.step) ==>
      && reply.Ok? && reply.messageId == messageId
      && |saved| == 2
      && saved[0] == ChatMessage("user", body.message, UserMetadata(body.leadIds))
      && saved[1].role == "assistant" && saved[1].content == reply.response
      && (reply.action.None? <==> Route(body.message) == Fallback)
      && saved[1].metadata == (if reply.action.Some? then Some(ActionMeta(reply.action.value)) else None)
    ensures Route(body.message) == GoodEmail && reply.Ok? ==>
      var found := GoodEmailLeads(store, body.leadIds);
      reply.action == Some(ShowLeads(LeadIds(found)))
      && reply.response == HeaderLine(|found|) + "\n\n" + Terminated(LeadLines(found), '\n')
    ensures Route(body.message) == SendEmail && reply.Ok? ==>
      var found := SendLeads(store, body.leadIds);
      contacts == ContactsFor(found) && reply.action == Some(EmailsQueued(|contacts|))
      && reply.response == QueuedResponse(|contacts|)
    ensures Route(body.message) == Fallback && reply.Ok? ==>
      reply.response == (if completion.Some? && completion.value != "" then completion.value else NoAnswer)
    ensures Route(body.message) != SendEmail ==> contacts == []
  {
    saved, contacts := [], [];
    if Throws(failure, ReadBody) || Throws(failure, SaveUserMessage) {
      return ErrorReply(failure.value), saved, contacts;
    }
    saved := [ChatMessage("user", body.message, UserMetadata(body.leadIds))];
    var command := Route(body.message);
    var thrown: bool, response: string, action: Option<Action>;
    if command == GoodEmail {
      var shown;
      thrown, response, shown := AnswerGoodEmail(store, body.leadIds, failure);
      action := Some(shown);
    } else if command == SendEmail {
      var queued, made;
      thrown, response, queued, made := AnswerSend(store, body.leadIds, failure);
      action, contacts := Some(queued), made;
    } else {
      thrown, response := AnswerFallback(body.leadIds, completion, failure);
      action := None;
    }
    ThrownIffReached(body, store, failure, command, thrown);
    if thrown || Throws(failure, SaveReply) {
      return ErrorReply(failure.value), saved, contacts;
    }
    var metadata := if action.Some? then Some(ActionMeta(action.value)) else None;
    saved := saved + [ChatMessage("assistant", response, metadata)];
    reply := Ok(response, action, messageId);
  }

  /**
   * Once the user's message is stored, the branch throws, or the final save
   * does, exactly when the failing step is one the branch of `body` reaches.
   */
  lemma ThrownIffReached(body: ChatBody, store: seq<DbLead>, failure: Option<Failure>, command: Command, thrown: bool)
    requires command == Route(body.message)
    requires !Throws(failure, ReadBody) && !Throws(failure, SaveUserMessage)
    requires command == GoodEmail ==> (thrown <==> Throws(failure, QueryLeads))
    requires command == SendEmail ==>
      (thrown <==> Throws(failure, QueryLeads) || (Throws(failure, CreateContacts) && SendLeads(store, body.leadIds) != []))
    requires command == Fallback ==>
      (thrown <==> (Throws(failure, QueryLeads) && body.leadIds.Some?) || Throws(failure, AskCompletion))
    ensures thrown || Throws(failure, SaveReply) <==> failure.Some? && Reaches(body, store, failure.value.step)
  {
  }

  /** Whatever step throws, the reply is a 500 carrying an `error` text. */
  lemma FailureIsServerError(f: Failure)
    ensures ErrorReply(f).ServerError? && ErrorReply(f).status == 500 && ErrorReply(f).error != ""
  {
  }
}
