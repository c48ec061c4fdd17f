/**
 * The chat intake of the webhook server: the dispatch of a text message
 * (confirmation replies, project selection, commands, typed expense lines),
 * the PAGO and PROPIO commands, the decisions taken on an audio or an image
 * message, and the confirm/complete transitions of the pending store.
 *
 * The outside world is a parameter: `Env` holds the link documents, the
 * project collection and whether the assistant is configured; what the
 * assistant answers (a category, a transcript, a receipt) and whether a media
 * download succeeded are inputs of the operation that uses them. An operation
 * reports the kind of reply it sends, the expense document it writes and the
 * client notification it sends.
 */
module Intake {
  import opened Wrappers
  import opened Text
  import opened LocalAmount
  import opened ExpenseParser
  import opened Categories
  import opened Projects
  import opened PendingStore

  // ---------------------------------------------------------------------------
  // Environment and effects
  // ---------------------------------------------------------------------------

  /** A `whatsappLinks` document: its `status` and the linked user. */
  datatype Link = Link(status: string, userId: string)

  datatype Env = Env(links: map<string, Link>, projects: seq<Project>, assistant: bool)

  /** The user a phone is linked to: the link document exists and its status is `linked`. */
  function LinkedUser(links: map<string, Link>, phone: string): (r: Option<string>)
    ensures r.Some? <==> phone in links && links[phone].status == "linked"
    ensures r.Some? ==> r.value == links[phone].userId
  {
    if phone in links && links[phone].status == "linked" then Some(links[phone].userId) else None
  }

  /** An `expenses` document as the intake writes it (the constant `source` and the server timestamps aside). */
  datatype ExpenseDoc = ExpenseDoc(
    projectId: string,
    providerId: string,
    title: string,
    description: string,
    amount: real,
    category: string,
    kind: ExpenseKind,
    transcription: Option<string>,
    originalMessage: string)

  /** The message sent to a project's client. */
  datatype Notice = Notice(to: string, noun: string, amount: real, projectName: string)

  /** The kind of reply sent back to the sender. */
  datatype Reply =
    | NotLinked
    | Cancelled
    | LinkFormat
    | LinkRequest(code: string)
    | Unlink
    | Help
    | ProjectList
    | Summary(tag: string)
    | SummaryFormat
    | CommandFormat
    | InvalidAmount
    | MissingTag
    | UnknownProject(tag: string)
    | NotUnderstood
    | Registered(kind: ExpenseKind)
    | RegisteredFromAudio
    | Unavailable
    | DownloadFailed
    | AudioNotUnderstood
    | NoAmount
    | NoActiveProjects
    | AskProject(tags: seq<string>)
    | AskConfirmation
    | ImageNeedsTag
    | ReceiptUnreadable

  datatype Outcome = Outcome(reply: Reply, written: Option<ExpenseDoc>, notice: Option<Notice>)

  /** A reply that writes nothing and notifies nobody. */
  function Say(reply: Reply): (o: Outcome)
    ensures o.reply == reply && o.written.None? && o.notice.None?
  {
    Outcome(reply, None, None)
  }

  /** An expense written into an active project of the sender's linked user. */
  predicate WrittenToOwnProject(env: Env, phone: string, doc: ExpenseDoc) {
    && LinkedUser(env.links, phone) == Some(doc.providerId)
    && exists p :: p in env.projects && p.id == doc.projectId && p.providerId == doc.providerId && p.status == Active
  }

  // ---------------------------------------------------------------------------
  // Client notification
  // ---------------------------------------------------------------------------

  /** The project document with the given id. */
  function ProjectById(projects: seq<Project>, id: string): (r: Option<Project>)
    ensures r.Some? ==> r.value in projects && r.value.id == id
    ensures r.None? <==> forall p :: p in projects ==> p.id != id
  {
    if projects == [] then None
    else if projects[0].id == id then Some(projects[0])
    else ProjectById(projects[1..], id)
  }

  /** A project with a client phone that is present and not empty. */
  predicate HasClient(p: Project) {
    p.clientPhone.Some? && p.clientPhone.value != ""
  }

  /**
   * `notifyClient`: a message to the project's client phone when the project
   * exists and has one, labelled `pago` for a payment and `gasto` otherwise.
   */
  function NotifyClient(projects: seq<Project>, projectId: string, amount: real, projectName: string, kind: ExpenseKind): (r: Option<Notice>)
    ensures r.Some? <==> ProjectById(projects, projectId).Some? && HasClient(ProjectById(projects, projectId).value)
    ensures r.Some? ==> r.value.to == ProjectById(projects, projectId).value.clientPhone.value
    ensures r.Some? ==> r.value.amount == amount && r.value.projectName == projectName
    ensures r.Some? ==> (r.value.noun == "pago" <==> kind == Payment) && (r.value.noun == "pago" || r.value.noun == "gasto")
  {
    match ProjectById(projects, projectId)
    case None => None
    case Some(p) =>
      if !HasClient(p) then None
      else Some(Notice(p.clientPhone.value, if kind == Payment then "pago" else "gasto", amount, projectName))
  }

  // ---------------------------------------------------------------------------
  // Category choice of a typed expense line
  // ---------------------------------------------------------------------------

  /**
   * The `c:` category when it is not empty, else the assistant's answer when
   * the assistant is configured and answers something, else `otros`; the
   * choice is then normalised onto the category list.
   */
  function LineCategory(typed: Option<string>, assistant: bool, answer: string): (r: string)
    ensures r in ServerCategories
    ensures typed.Some? && typed.value != "" ==> r == NormalizeCategory(typed.value)
    ensures (typed.None? || typed.value == "") && !assistant ==> r == Other
    ensures (typed.None? || typed.value == "") && assistant ==>
      r == NormalizeCategory(if answer == "" then Other else answer)
  {
    var chosen := if typed.Some? && typed.value != "" then typed.value else if assistant then answer else "";
    NormalizeCategoryFixed(5);
    NormalizeCategory(if chosen == "" then Other else chosen)
  }

  // ---------------------------------------------------------------------------
  // Typed expense line
  // ---------------------------------------------------------------------------

  /**
   * `handleExpenseMessage`: the sender must be linked, the line must parse,
   * carry a tag and name an active project of the user; the expense is then
   * written with a normalised category and the client is notified.
   */
  function ExpenseLine(env: Env, phone: string, text: string, answer: string): (o: Outcome)
    ensures LinkedUser(env.links, phone).None? ==> o == Say(NotLinked)
    ensures LinkedUser(env.links, phone).Some? && ParseExpenseMessage(text).None? ==> o == Say(NotUnderstood)
    ensures LinkedUser(env.links, phone).Some? && ParseExpenseMessage(text).Some? ==>
      var userId := LinkedUser(env.links, phone).value;
      var parsed := ParseExpenseMessage(text).value;
      && (parsed.projectTag.None? ==> o == Say(MissingTag))
      && (parsed.projectTag.Some? && FindProjectByTag(env.projects, userId, parsed.projectTag.value).None? ==>
            o == Say(UnknownProject(parsed.projectTag.value)))
      && (parsed.projectTag.Some? && FindProjectByTag(env.projects, userId, parsed.projectTag.value).Some? ==>
            var project := FindProjectByTag(env.projects, userId, parsed.projectTag.value).value;
            && o.reply == Registered(Expense)
            && o.written.Some?
            && o.written.value.projectId == project.id
            && o.written.value.category == LineCategory(parsed.category, env.assistant, answer)
            && o.written.value.transcription.None?
            && o.notice == NotifyClient(env.projects, project.id, parsed.amount, project.name, Expense))
    ensures o.written.Some? <==> o.reply == Registered(Expense)
    ensures o.written.Some? ==> WrittenToOwnProject(env, phone, o.written.value)
    ensures o.written.Some? ==>
      var parsed := ParseExpenseMessage(text);
      && parsed.Some?
      && o.written.value.amount == parsed.value.amount > 0.0
      && o.written.value.title == parsed.value.title
      && o.written.value.description == parsed.value.description
      && o.written.value.category in ServerCategories
      && o.written.value.kind == Expense
      && o.written.value.originalMessage == text
    ensures o.notice.Some? ==> o.written.Some? && o.notice.value.noun == "gasto"
  {
    match LinkedUser(env.links, phone)
    case None => Say(NotLinked)
    case Some(userId) =>
      match ParseExpenseMessage(text)
      case None => Say(NotUnderstood)
      case Some(parsed) =>
        match parsed.projectTag
        case None => Say(MissingTag)
        case Some(tag) =>
          match FindProjectByTag(env.projects, userId, tag)
          case None => Say(UnknownProject(tag))
          case Some(project) =>
            assert project in env.projects && IsTagged(project, userId, tag);
            var category := LineCategory(parsed.category, env.assistant, answer);
            var doc := ExpenseDoc(project.id, userId, parsed.title, parsed.description, parsed.amount, category, Expense, None, text);
            Outcome(Registered(Expense), Some(doc), NotifyClient(env.projects, project.id, parsed.amount, project.name, Expense))
  }

  // ---------------------------------------------------------------------------
  // PAGO and PROPIO
  // ---------------------------------------------------------------------------

  /** The first line terminator at or after `i`, or the text's length. */
  function LineEnd(s: string, i: nat): (e: nat)
    requires i <= |s|
    ensures i <= e <= |s|
    ensures forall k :: i <= k < e ==> !IsLineTerminator(s[k])
    ensures e == |s| || IsLineTerminator(s[e])
    decreases |s| - i
  {
    if i == |s| || IsLineTerminator(s[i]) then i else LineEnd(s, i + 1)
  }

  /**
   * The groups of `/^<word>\s+\$?\s*([\d.,]+)\s*(.*)/i` on the trimmed text,
   * with `\s+` in place of the last `\s*` when `spaced`. The command word is
   * compared without regard to case; `(.*)` stops at the first line break.
   */
  function CommandAmountLine(t: string, word: string, spaced: bool): (r: Option<AmountLine>)
    ensures r.Some? ==> |word| <= |t| && Lower(t[..|word|]) == word
    ensures r.Some? ==> r.value.amountText != [] && AllAmountChars(r.value.amountText)
    ensures r.Some? ==> NoLineTerminators(r.value.rest)
  {
    var n := |word|;
    if |t| < n || Lower(t[..n]) != word then None
    else
      var p1 := SkipSpaces(t, n);
      var p2 := if p1 < |t| && t[p1] == '$' then p1 + 1 else p1;
      var p3 := SkipSpaces(t, p2);
      var p4 := AmountRun(t, p3);
      var p5 := SkipSpaces(t, p4);
      if p1 == n || p4 == p3 || (spaced && p5 == p4) then None
      else Some(AmountLine(t[p3..p4], t[p5..LineEnd(t, p5)]))
  }

  /** What a PAGO or PROPIO line yields once its amount and tag are accepted. */
  datatype CommandLine = CommandLine(amount: real, tag: string, title: string)

  /**
   * The steps PAGO and PROPIO share after the link check: the pattern, a
   * positive amount, and a tag, whose `#tag` is cut out of the trimmed rest to
   * leave the title (possibly empty). An error carries the rejection's reply.
   */
  function ParseCommandLine(text: string, word: string, spaced: bool): (r: Result<CommandLine, Reply>)
    ensures var line := CommandAmountLine(Trim(text), word, spaced);
      && (r == Err(CommandFormat) <==> line.None?)
      && (r == Err(InvalidAmount) <==> line.Some? && !PositiveAmount(line.value.amountText))
      && (r == Err(MissingTag) <==>
            line.Some? && PositiveAmount(line.value.amountText) && ExtractTag(Trim(line.value.rest)).found.None?)
    ensures r.Ok? ==> r.value.amount > 0.0 && r.value.tag != []
    ensures r.Ok? ==>
      var line := CommandAmountLine(Trim(text), word, spaced);
      && line.Some?
      && ParseLocalAmount(line.value.amountText) == Some(r.value.amount)
      && ExtractTag(Trim(line.value.rest)) == Extracted(Some(r.value.tag), r.value.title)
    ensures r.Err? ==> r.error == CommandFormat || r.error == InvalidAmount || r.error == MissingTag
  {
    match CommandAmountLine(Trim(text), word, spaced)
    case None => Err(CommandFormat)
    case Some(line) =>
      var amount := ParseLocalAmount(line.amountText);
      if amount.None? || amount.value <= 0.0 then Err(InvalidAmount)
      else
        var tagged := ExtractTag(Trim(line.rest));
        match tagged.found
        case None => Err(MissingTag)
        case Some(tag) => Ok(CommandLine(amount.value, tag, tagged.rest))
  }

  /**
   * `handlePagoCommand`: a client payment, written directly with category
   * `pago` and the title `Pago del cliente` when none is given; the client is
   * notified of a `pago`.
   */
  function Pago(env: Env, phone: string, text: string): (o: Outcome)
    ensures LinkedUser(env.links, phone).None? ==> o == Say(NotLinked)
    ensures LinkedUser(env.links, phone).Some? ==>
      var userId := LinkedUser(env.links, phone).value;
      var line := ParseCommandLine(text, "pago", false);
      && (line.Err? ==> o == Say(line.error))
      && (line.Ok? && FindProjectByTag(env.projects, userId, line.value.tag).None? ==>
            o == Say(UnknownProject(line.value.tag)))
      && (line.Ok? && FindProjectByTag(env.projects, userId, line.value.tag).Some? ==>
            var project := FindProjectByTag(env.projects, userId, line.value.tag).value;
            && o.reply == Registered(Payment)
            && o.written.Some?
            && o.written.value.projectId == project.id
            && o.written.value.transcription.None?
            && o.notice == NotifyClient(env.projects, project.id, line.value.amount, project.name, Payment))
    ensures o.written.Some? <==> o.reply == Registered(Payment)
    ensures o.written.Some? ==> WrittenToOwnProject(env, phone, o.written.value)
    ensures o.written.Some? ==>
      var line := ParseCommandLine(text, "pago", false);
      && line.Ok?
      && o.written.value.amount == line.value.amount > 0.0
      && o.written.value.title == (if line.value.title == "" then "Pago del cliente" else line.value.title)
      && o.written.value.description == ""
      && o.written.value.category == "pago"
      && o.written.value.kind == Payment
      && o.written.value.originalMessage == text
    ensures o.notice.Some? ==> o.written.Some? && o.notice.value.noun == "pago"
  {
    match LinkedUser(env.links, phone)
    case None => Say(NotLinked)
    case Some(userId) =>
      match ParseCommandLine(text, "pago", false)
      case Err(reply) => Say(reply)
      case Ok(line) =>
        match FindProjectByTag(env.projects, userId, line.tag)
        case None => Say(UnknownProject(line.tag))
        case Some(project) =>
          assert project in env.projects && IsTagged(project, userId, line.tag);
          var title := if line.title == "" then "Pago del cliente" else line.title;
          var doc := ExpenseDoc(project.id, userId, title, "", line.amount, "pago", Payment, None, text);
          Outcome(Registered(Payment), Some(doc), NotifyClient(env.projects, project.id, line.amount, project.name, Payment))
  }

  /**
   * `handlePropioCommand`: an expense paid by the provider, written directly
   * with its title capitalised (`Gasto propio` when none is given) and the
   * assistant's category normalised, or `otros` without an assistant; the
   * client is not notified.
   */
  function Propio(env: Env, phone: string, text: string, answer: string): (o: Outcome)
    ensures LinkedUser(env.links, phone).None? ==> o == Say(NotLinked)
    ensures LinkedUser(env.links, phone).Some? ==>
      var userId := LinkedUser(env.links, phone).value;
      var line := ParseCommandLine(text, "propio", true);
      && (line.Err? ==> o == Say(line.error))
      && (line.Ok? && FindProjectByTag(env.projects, userId, line.value.tag).None? ==>
            o == Say(UnknownProject(line.value.tag)))
      && (line.Ok? && FindProjectByTag(env.projects, userId, line.value.tag).Some? ==>
            var project := FindProjectByTag(env.projects, userId, line.value.tag).value;
            && o.reply == Registered(ProviderExpense)
            && o.written.Some?
            && o.written.value.projectId == project.id
            && o.written.value.description == ""
            && o.written.value.category == (if env.assistant then NormalizeCategory(answer) else Other)
            && o.written.value.transcription.None?)
    ensures o.notice.None?
    ensures o.written.Some? <==> o.reply == Registered(ProviderExpense)
    ensures o.written.Some? ==> WrittenToOwnProject(env, phone, o.written.value)
    ensures o.written.Some? ==>
      var line := ParseCommandLine(text, "propio", true);
      && line.Ok?
      && o.written.value.amount == line.value.amount > 0.0
      && o.written.value.title == CapitalizeFirst(if line.value.title == "" then "Gasto propio" else line.value.title)
      && o.written.value.category in ServerCategories
      && (!env.assistant ==> o.written.value.category == Other)
      && o.written.value.kind == ProviderExpense
      && o.written.value.originalMessage == text
  {
    match LinkedUser(env.links, phone)
    case None => Say(NotLinked)
    case Some(userId) =>
      match ParseCommandLine(text, "propio", true)
      case Err(reply) => Say(reply)
      case Ok(line) =>
        match FindProjectByTag(env.projects, userId, line.tag)
        case None => Say(UnknownProject(line.tag))
        case Some(project) =>
          assert project in env.projects && IsTagged(project, userId, line.tag);
          var title := if line.title == "" then "Gasto propio" else line.title;
          var category := if env.assistant then NormalizeCategory(answer) else Other;
          var doc := ExpenseDoc(project.id, userId, CapitalizeFirst(title), "", line.amount, category, ProviderExpense, None, text);
          Outcome(Registered(ProviderExpense), Some(doc), None)
  }

  // ---------------------------------------------------------------------------
  // Other commands
  // ---------------------------------------------------------------------------

  /** The index of the first `c` at or after `from`, or the text's length. */
  function IndexOfChar(s: string, c: char, from: nat): (i: nat)
    requires from <= |s|
    ensures from <= i <= |s|
    ensures i < |s| ==> s[i] == c
    ensures forall k :: from <= k < i ==> s[k] != c
    decreases |s| - from
  {
    if from == |s| || s[from] == c then from else IndexOfChar(s, c, from + 1)
  }

  /**
   * The second piece of `t.split(' ')`: it runs from just after the first
   * blank, at `i`, to the next blank or the end, at `j`.
   */
  predicate SecondPiece(t: string, i: int, j: int) {
    && 0 <= i < j <= |t| && t[i] == ' ' && (j == |t| || t[j] == ' ')
    && (forall k :: 0 <= k < i ==> t[k] != ' ')
    && (forall k :: i < k < j ==> t[k] != ' ')
  }

  /** The second piece is the one the scans for blanks find. */
  lemma SecondPieceIsFound(t: string, i: int, j: int)
    requires SecondPiece(t, i, j)
    ensures i == IndexOfChar(t, ' ', 0) && j == IndexOfChar(t, ' ', i + 1)
  {
  }

  /** `t.split(' ')[1]?.toUpperCase()`: the upper-cased piece after the first blank, if there is one. */
  function LinkCode(t: string): (r: Option<string>)
    ensures r.Some? <==> exists k :: 0 <= k < |t| && t[k] == ' '
    ensures forall i, j :: SecondPiece(t, i, j) ==> r == Some(Upper(t[i + 1..j]))
    ensures r.Some? ==> forall k :: 0 <= k < |r.value| ==> r.value[k] != ' ' && ToUpperChar(r.value[k]) == r.value[k]
  {
    var i := IndexOfChar(t, ' ', 0);
    if i == |t| then None
    else
      var j := IndexOfChar(t, ' ', i + 1);
      var code := Upper(t[i + 1..j]);
      assert forall i', j' :: SecondPiece(t, i', j') ==> i' == i && j' == j by {
        forall i', j' | SecondPiece(t, i', j') ensures i' == i && j' == j {
          SecondPieceIsFound(t, i', j');
        }
      }
      forall k | 0 <= k < |code| ensures code[k] != ' ' && ToUpperChar(code[k]) == code[k] {
        ToUpperIdempotent(t[i + 1 + k]);
      }
      Some(code)
  }

  /** The lower-cased, trimmed text is one of the commands. */
  predicate NamesCommand(normalized: string) {
    || StartsWith(normalized, "vincular ") || normalized == "desvincular"
    || normalized == "ayuda" || normalized == "help" || normalized == "proyectos"
    || StartsWith(normalized, "resumen ") || StartsWith(normalized, "pago ") || StartsWith(normalized, "propio ")
  }

  /** The first letters that tell the command words apart. */
  lemma CommandHeads(n: string)
    ensures StartsWith(n, "vincular ") ==> |n| > 8 && n[0] == 'v'
    ensures StartsWith(n, "resumen ") ==> |n| > 7 && n[0] == 'r'
    ensures StartsWith(n, "pago ") ==> |n| > 4 && n[0] == 'p' && n[1] == 'a'
    ensures StartsWith(n, "propio ") ==> |n| > 6 && n[0] == 'p' && n[1] == 'r' && n[3] == 'p'
  {
    if StartsWith(n, "vincular ") { assert n[0] == n[..9][0]; }
    if StartsWith(n, "resumen ") { assert n[0] == n[..8][0]; }
    if StartsWith(n, "pago ") { assert n[0] == n[..5][0] && n[1] == n[..5][1]; }
    if StartsWith(n, "propio ") { assert n[0] == n[..7][0] && n[1] == n[..7][1] && n[3] == n[..7][3]; }
  }

  /** At most one command word applies to a text. */
  lemma CommandsExclusive(n: string)
    ensures StartsWith(n, "vincular ") ==>
      && n != "desvincular" && n != "ayuda" && n != "help" && n != "proyectos"
      && !StartsWith(n, "resumen ") && !StartsWith(n, "pago ") && !StartsWith(n, "propio ")
    ensures n == "desvincular" || n == "ayuda" || n == "help" || n == "proyectos" ==>
      !StartsWith(n, "resumen ") && !StartsWith(n, "pago ") && !StartsWith(n, "propio ")
    ensures StartsWith(n, "resumen ") ==> !StartsWith(n, "pago ") && !StartsWith(n, "propio ")
    ensures StartsWith(n, "pago ") ==> !StartsWith(n, "propio ")
  {
    CommandHeads(n);
    if n == "proyectos" {
      assert n[3] == 'y';
    }
  }

  /**
   * The commands, tried in the order of `processMessage` on the trimmed,
   * lower-cased text, and the typed expense line when none applies. The link,
   * unlink, help, project-list and summary handlers themselves are outside the
   * model; their reply stands for the handler being called.
   */
  function Command(env: Env, phone: string, text: string, answer: string): (o: Outcome)
    ensures var normalized := Lower(Trim(text));
      && (StartsWith(normalized, "vincular ") ==>
            var code := LinkCode(Trim(text));
            o == if code.None? || code.value == "" then Say(LinkFormat) else Say(LinkRequest(code.value)))
      && (normalized == "desvincular" ==> o == Say(Unlink))
      && (normalized == "ayuda" || normalized == "help" ==> o == Say(Help))
      && (normalized == "proyectos" ==> o == Say(ProjectList))
      && (StartsWith(normalized, "resumen ") ==>
            o == if ExtractTag(text).found.Some? then Say(Summary(ExtractTag(text).found.value)) else Say(SummaryFormat))
      && (StartsWith(normalized, "pago ") ==> o == Pago(env, phone, text))
      && (StartsWith(normalized, "propio ") ==> o == Propio(env, phone, text, answer))
      && (!NamesCommand(normalized) ==> o == ExpenseLine(env, phone, text, answer))
    ensures o.written.Some? ==> WrittenToOwnProject(env, phone, o.written.value)
    ensures o.written.Some? ==> o.written.value.amount > 0.0 && o.written.value.originalMessage == text
  {
    var normalized := Lower(Trim(text));
    CommandsExclusive(normalized);
    if StartsWith(normalized, "vincular ") then
      var code := LinkCode(Trim(text));
      if code.None? || code.value == "" then Say(LinkFormat) else Say(LinkRequest(code.value))
    else if normalized == "desvincular" then Say(Unlink)
    else if normalized == "ayuda" || normalized == "help" then Say(Help)
    else if normalized == "proyectos" then Say(ProjectList)
    else if StartsWith(normalized, "resumen ") then
      match ExtractTag(text).found
      case Some(tag) => Say(Summary(tag))
      case None => Say(SummaryFormat)
    else if StartsWith(normalized, "pago ") then Pago(env, phone, text)
    else if StartsWith(normalized, "propio ") then Propio(env, phone, text, answer)
    else ExpenseLine(env, phone, text, answer)
  }

  // ---------------------------------------------------------------------------
  // Confirm and complete
  // ---------------------------------------------------------------------------

  /** The store after a step, and what the step did. */
  datatype Step = Step(entries: map<string, Entry>, outcome: Outcome)

  /** `x || null` on an optional text: an empty text counts as absent. */
  function OrNull(x: Option<string>): (r: Option<string>)
    ensures r.Some? ==> r.value != ""
    ensures x.Some? && x.value != "" ==> r == x
  {
    if x.Some? && x.value != "" then x else None
  }

  /** The expense document `confirmPendingExpense` writes from a confirmed draft. */
  function ConfirmedDoc(e: Entry): (doc: ExpenseDoc)
    ensures doc.providerId == e.userId && doc.amount == e.data.amount && doc.kind == e.data.kind
    ensures e.data.project.Some? ==> doc.projectId == e.data.project.value.id
    ensures doc.title == e.data.title && doc.description == e.data.description && doc.category == e.data.category
    ensures doc.originalMessage == e.data.note
    ensures doc.transcription == OrNull(e.data.transcription)
  {
    var projectId := if e.data.project.Some? then e.data.project.value.id else "";
    ExpenseDoc(projectId, e.userId, e.data.title, e.data.description, e.data.amount, e.data.category,
      e.data.kind, OrNull(e.data.transcription), e.data.note)
  }

  /**
   * `confirmPendingExpense`: the entry is cleared, the draft is written, and
   * the client is notified unless the draft is the provider's own expense.
   */
  function Confirm(m: map<string, Entry>, env: Env, phone: string, e: Entry): (r: Step)
    ensures r.entries == m - {phone}
    ensures r.outcome.reply == Registered(e.data.kind)
    ensures r.outcome.written == Some(ConfirmedDoc(e))
    ensures e.data.kind == ProviderExpense ==> r.outcome.notice.None?
    ensures e.data.kind != ProviderExpense ==>
      r.outcome.notice == NotifyClient(env.projects, ConfirmedDoc(e).projectId, e.data.amount,
        if e.data.project.Some? then e.data.project.value.name else "", e.data.kind)
  {
    var doc := ConfirmedDoc(e);
    var projectName := if e.data.project.Some? then e.data.project.value.name else "";
    var notice := if e.data.kind != ProviderExpense then NotifyClient(env.projects, doc.projectId, e.data.amount, projectName, e.data.kind) else None;
    Step(m - {phone}, Outcome(Registered(e.data.kind), Some(doc), notice))
  }

  /**
   * `completePendingExpense`: with a tag naming an active project of the
   * draft's user, the entry is cleared and the draft is written into that
   * project as an audio expense; with any other tag nothing changes.
   */
  function Complete(m: map<string, Entry>, env: Env, phone: string, e: Entry, tag: string): (r: Step)
    ensures FindProjectByTag(env.projects, e.userId, tag).None? ==> r == Step(m, Say(UnknownProject(tag)))
    ensures FindProjectByTag(env.projects, e.userId, tag).Some? ==>
      var p := FindProjectByTag(env.projects, e.userId, tag).value;
      && r.entries == m - {phone}
      && r.outcome.reply == RegisteredFromAudio
      && r.outcome.written == Some(ExpenseDoc(p.id, e.userId, e.data.title, e.data.description, e.data.amount,
           e.data.category, e.data.kind, OrNull(e.data.transcription), "[Audio] " + e.data.note))
      && r.outcome.notice == NotifyClient(env.projects, p.id, e.data.amount, p.name, Expense)
  {
    match FindProjectByTag(env.projects, e.userId, tag)
    case None => Step(m, Say(UnknownProject(tag)))
    case Some(p) =>
      var doc := ExpenseDoc(p.id, e.userId, e.data.title, e.data.description, e.data.amount, e.data.category,
        e.data.kind, OrNull(e.data.transcription), "[Audio] " + e.data.note);
      Step(m - {phone}, Outcome(RegisteredFromAudio, Some(doc), NotifyClient(env.projects, p.id, e.data.amount, p.name, Expense)))
  }

  // ---------------------------------------------------------------------------
  // Dispatch of a text message
  // ---------------------------------------------------------------------------

  const YesTokens: seq<string> := ["si", "s\U{ED}", "ok", "dale", "yes", "confirmar"]
  const NoTokens: seq<string> := ["no", "cancelar", "cancel"]

  /** `/^#(\S+)$/` on the trimmed text: a `#` and nothing but non-blank characters after it. */
  predicate IsBareTag(t: string) {
    |t| >= 2 && t[0] == '#' && forall k :: 1 <= k < |t| ==> !IsSpace(t[k])
  }

  /** A fresh entry of the phone that waits for a yes or a no. */
  predicate AwaitsConfirmation(m: map<string, Entry>, phone: string, now: int) {
    Lookup(m, phone, now).Some? && Lookup(m, phone, now).value.pendingConfirmation
  }

  /** A fresh entry of the phone that waits for a project. */
  predicate AwaitsProject(m: map<string, Entry>, phone: string, now: int) {
    Lookup(m, phone, now).Some? && !Lookup(m, phone, now).value.pendingConfirmation
  }

  /**
   * `processMessage`: read the pending entry (dropping it when expired); a yes
   * confirms and a no cancels an entry awaiting confirmation; a bare `#tag`
   * completes an entry awaiting a project; anything else goes to the commands
   * and the typed expense line, which leave the store alone.
   */
  function Dispatch(m: map<string, Entry>, env: Env, phone: string, text: string, now: int, answer: string): (r: Step)
    ensures forall q :: q in r.entries ==> q in m && r.entries[q] == m[q]
    ensures forall q :: q in m && q != phone ==> q in r.entries
  {
    var normalized := Lower(Trim(text));
    var pending := Lookup(m, phone, now);
    var kept := AfterLookup(m, phone, now);
    if pending.Some? && pending.value.pendingConfirmation && normalized in YesTokens then
      Confirm(kept, env, phone, pending.value)
    else if pending.Some? && pending.value.pendingConfirmation && normalized in NoTokens then
      Step(kept - {phone}, Say(Cancelled))
    else if IsBareTag(Trim(text)) && pending.Some? && !pending.value.pendingConfirmation then
      Complete(kept, env, phone, pending.value, Lower(Trim(text)[1..]))
    else
      Step(kept, Command(env, phone, text, answer))
  }

  // ---------------------------------------------------------------------------
  // Audio and image messages
  // ---------------------------------------------------------------------------

  /** The fields of the assistant's transcription of an audio message; absent texts are empty. */
  datatype Transcript = Transcript(
    amount: Option<real>,
    title: string,
    description: string,
    category: string,
    projectReference: Option<string>,
    text: Option<string>)

  /** The fields of the assistant's reading of a receipt photo. */
  datatype Receipt = Receipt(total: Option<real>, storeName: string, items: Option<seq<string>>)

  /** The reply to a media message and the entry it leaves in the pending store, if any. */
  datatype Decision = Decision(reply: Reply, pending: Option<Entry>)

  /** The tags listed when the sender is asked to pick a project. */
  function Tags(projects: seq<Project>): (r: seq<string>)
    ensures |r| == |projects| && forall i :: 0 <= i < |projects| ==> r[i] == projects[i].tag
  {
    seq(|projects|, i requires 0 <= i < |projects| => projects[i].tag)
  }

  /** What a confirmation draft keeps of its project. */
  function RefOf(p: Project): ProjectRef {
    ProjectRef(p.id, p.tag, p.name)
  }

  /**
   * The project of an audio expense: the caption's tag, else the spoken
   * reference matched against the active projects, else the only active
   * project.
   */
  function ResolveAudioProject(projects: seq<Project>, userId: string, captionTag: Option<string>, reference: Option<string>): (r: Option<Project>)
    ensures r.Some? ==> r.value in ActiveProjects(projects, userId)
    ensures captionTag.Some? && FindProjectByTag(projects, userId, captionTag.value).Some? ==>
      r == FindProjectByTag(projects, userId, captionTag.value)
    ensures (captionTag.None? || FindProjectByTag(projects, userId, captionTag.value).None?) ==>
      var byReference := MatchProjectFromReference(ActiveProjects(projects, userId), reference);
      && (byReference.Some? ==> r == byReference)
      && (byReference.None? ==>
            r == if |ActiveProjects(projects, userId)| == 1 then Some(ActiveProjects(projects, userId)[0]) else None)
    ensures |ActiveProjects(projects, userId)| == 1 ==> r.Some?
  {
    var active := ActiveProjects(projects, userId);
    var byTag := if captionTag.Some? then FindProjectByTag(projects, userId, captionTag.value) else None;
    if byTag.Some? then byTag
    else
      var byReference := if reference.Some? && reference.value != "" then MatchProjectFromReference(active, reference) else None;
      if byReference.Some? then byReference
      else if |active| == 1 then Some(active[0])
      else None
  }

  /** `!transcription || (!transcription.amount && !transcription.title)` fails: there is something to register. */
  predicate Understood(transcript: Option<Transcript>) {
    transcript.Some? && !((transcript.value.amount.None? || transcript.value.amount.value == 0.0) && transcript.value.title == "")
  }

  /** `transcription.amount || 0`. */
  function SpokenAmount(tr: Transcript): (a: real)
    ensures tr.amount.Some? ==> a == tr.amount.value
    ensures tr.amount.None? ==> a == 0.0
  {
    if tr.amount.Some? then tr.amount.value else 0.0
  }

  /**
   * The decisions of `processAudioMessage` once the media is handled: the
   * sender must be linked, the assistant configured and the download done;
   * a transcript with neither amount nor title is not understood; the title
   * and amount take their defaults and a non-positive amount is refused. A
   * resolved project gives an entry awaiting confirmation; otherwise, with
   * active projects, an entry awaiting a project, and without them a refusal.
   */
  function AudioDecision(env: Env, phone: string, caption: string, now: int, downloaded: bool, transcript: Option<Transcript>, answer: string): (d: Decision)
    ensures LinkedUser(env.links, phone).None? ==> d == Decision(NotLinked, None)
    ensures LinkedUser(env.links, phone).Some? && !env.assistant ==> d == Decision(Unavailable, None)
    ensures LinkedUser(env.links, phone).Some? && env.assistant && !downloaded ==> d == Decision(DownloadFailed, None)
    ensures LinkedUser(env.links, phone).Some? && env.assistant && downloaded && !Understood(transcript) ==>
      d == Decision(AudioNotUnderstood, None)
    ensures LinkedUser(env.links, phone).Some? && env.assistant && downloaded && Understood(transcript) ==>
      var userId := LinkedUser(env.links, phone).value;
      var tr := transcript.value;
      var active := ActiveProjects(env.projects, userId);
      var resolved := ResolveAudioProject(env.projects, userId, ExtractTag(caption).found, tr.projectReference);
      && (SpokenAmount(tr) <= 0.0 ==> d == Decision(NoAmount, None))
      && (SpokenAmount(tr) > 0.0 && resolved.None? && |active| == 0 ==> d == Decision(NoActiveProjects, None))
      && (SpokenAmount(tr) > 0.0 && (resolved.Some? || |active| > 0) ==>
            && d.pending.Some?
            && d.pending.value.userId == userId
            && d.pending.value.data.title == (if tr.title != "" then tr.title else "Gasto por audio")
            && d.pending.value.data.amount == SpokenAmount(tr)
            && d.pending.value.data.description == tr.description
            && d.pending.value.data.category == (if tr.category != "" then tr.category else answer)
            && (resolved.Some? ==>
                  && d.reply == AskConfirmation
                  && d.pending.value.data.transcription == OrNull(tr.text)
                  && d.pending.value.data.note == "[Audio] " + caption)
            && (resolved.None? ==>
                  && d.pending.value.data.transcription == tr.text
                  && d.pending.value.data.note == caption))
    ensures d.pending.Some? ==>
      var e := d.pending.value;
      && LinkedUser(env.links, phone) == Some(e.userId)
      && e.timestamp == now && e.data.stamp == now
      && e.data.amount > 0.0 && e.data.kind == Expense
      && (e.pendingConfirmation <==> e.data.project.Some?)
    ensures d.pending.Some? ==>
      && transcript.Some?
      && var resolved := ResolveAudioProject(env.projects, d.pending.value.userId, ExtractTag(caption).found, transcript.value.projectReference);
      && (d.pending.value.pendingConfirmation <==> resolved.Some?)
      && (resolved.Some? ==> d.pending.value.data.project == Some(RefOf(resolved.value)))
    ensures d.pending.Some? && d.pending.value.pendingConfirmation ==>
      d.reply == AskConfirmation
      && exists p :: p in ActiveProjects(env.projects, d.pending.value.userId) && d.pending.value.data.project == Some(RefOf(p))
    ensures d.pending.Some? && !d.pending.value.pendingConfirmation ==>
      var active := ActiveProjects(env.projects, d.pending.value.userId);
      |active| >= 2 && d.reply == AskProject(Tags(active)) && d.pending.value.data.note == caption
  {
    match LinkedUser(env.links, phone)
    case None => Decision(NotLinked, None)
    case Some(userId) =>
      var captionTag := ExtractTag(caption).found;
      if !env.assistant then Decision(Unavailable, None)
      else if !downloaded then Decision(DownloadFailed, None)
      else
        var active := ActiveProjects(env.projects, userId);
        if !Understood(transcript) then Decision(AudioNotUnderstood, None)
        else
          var tr := transcript.value;
          var title := if tr.title != "" then tr.title else "Gasto por audio";
          var amount := SpokenAmount(tr);
          var category := if tr.category != "" then tr.category else answer;
          if amount <= 0.0 then Decision(NoAmount, None)
          else
            match ResolveAudioProject(env.projects, userId, captionTag, tr.projectReference)
            case None =>
              if |active| == 0 then Decision(NoActiveProjects, None)
              else
                var draft := Draft(None, title, tr.description, amount, category, Expense, tr.text, caption, now);
                Decision(AskProject(Tags(active)), Some(Entry(draft, userId, now, false)))
            case Some(p) =>
              var draft := Draft(Some(RefOf(p)), title, tr.description, amount, category, Expense, OrNull(tr.text), "[Audio] " + caption, now);
              Decision(AskConfirmation, Some(Entry(draft, userId, now, true)))
  }

  /** `storeName || items?.[0] || 'Ticket'`. */
  function ReceiptTitle(r: Receipt): (t: string)
    ensures t != ""
    ensures r.storeName != "" ==> t == r.storeName
    ensures r.storeName == "" && r.items.Some? && |r.items.value| > 0 && r.items.value[0] != "" ==> t == r.items.value[0]
    ensures r.storeName == "" && (r.items.None? || |r.items.value| == 0 || r.items.value[0] == "") ==> t == "Ticket"
  {
    if r.storeName != "" then r.storeName
    else if r.items.Some? && |r.items.value| > 0 && r.items.value[0] != "" then r.items.value[0]
    else "Ticket"
  }

  /** `items ? items.join(', ') : ''`. */
  function ReceiptDescription(r: Receipt): (t: string)
    ensures r.items.None? ==> t == ""
    ensures r.items.Some? ==> t == Join(r.items.value, ", ")
  {
    if r.items.Some? then Join(r.items.value, ", ") else ""
  }

  /** `!receiptData || !receiptData.totalAmount` fails: a receipt with a non-zero total. */
  predicate Readable(receipt: Option<Receipt>) {
    receipt.Some? && receipt.value.total.Some? && receipt.value.total.value != 0.0
  }

  /**
   * The decisions of `processImageMessage`: the sender must be linked, the
   * caption must carry the tag of an active project of the user, the assistant
   * must be configured, the download done and the receipt read with a non-zero
   * total; the draft then awaits confirmation.
   */
  function ImageDecision(env: Env, phone: string, caption: string, now: int, downloaded: bool, receipt: Option<Receipt>, answer: string): (d: Decision)
    ensures LinkedUser(env.links, phone).None? ==> d == Decision(NotLinked, None)
    ensures LinkedUser(env.links, phone).Some? ==>
      var userId := LinkedUser(env.links, phone).value;
      var tag := ExtractTag(caption).found;
      && (tag.None? ==> d == Decision(ImageNeedsTag, None))
      && (tag.Some? && FindProjectByTag(env.projects, userId, tag.value).None? ==> d == Decision(UnknownProject(tag.value), None))
      && (tag.Some? && FindProjectByTag(env.projects, userId, tag.value).Some? ==>
            var p := FindProjectByTag(env.projects, userId, tag.value).value;
            && (!env.assistant ==> d == Decision(Unavailable, None))
            && (env.assistant && !downloaded ==> d == Decision(DownloadFailed, None))
            && (env.assistant && downloaded && !Readable(receipt) ==> d == Decision(ReceiptUnreadable, None))
            && (env.assistant && downloaded && Readable(receipt) ==>
                  var r := receipt.value;
                  && d.reply == AskConfirmation
                  && d.pending == Some(Entry(Draft(Some(RefOf(p)), ReceiptTitle(r), ReceiptDescription(r), r.total.value,
                                                   answer, Expense, None, "[Imagen] " + caption, now), userId, now, true))))
    ensures d.pending.Some? ==>
      var e := d.pending.value;
      && LinkedUser(env.links, phone) == Some(e.userId)
      && e.pendingConfirmation && e.timestamp == now && e.data.stamp == now
      && receipt.Some? && receipt.value.total == Some(e.data.amount) && e.data.amount != 0.0
      && ExtractTag(caption).found.Some?
      && e.data.project.Some?
      && exists p :: IsTagged(p, e.userId, ExtractTag(caption).found.value) && e.data.project.value == RefOf(p)
    ensures d.pending.Some? <==> d.reply == AskConfirmation
  {
    match LinkedUser(env.links, phone)
    case None => Decision(NotLinked, None)
    case Some(userId) =>
      match ExtractTag(caption).found
      case None => Decision(ImageNeedsTag, None)
      case Some(tag) =>
        match FindProjectByTag(env.projects, userId, tag)
        case None => Decision(UnknownProject(tag), None)
        case Some(p) =>
          if !env.assistant then Decision(Unavailable, None)
          else if !downloaded then Decision(DownloadFailed, None)
          else if !Readable(receipt) then Decision(ReceiptUnreadable, None)
          else
            var r := receipt.value;
            var draft := Draft(Some(RefOf(p)), ReceiptTitle(r), ReceiptDescription(r), r.total.value, answer, Expense, None, "[Imagen] " + caption, now);
            Decision(AskConfirmation, Some(Entry(draft, userId, now, true)))
  }

  /** The store after a media decision. */
  function Apply(m: map<string, Entry>, phone: string, d: Decision): map<string, Entry> {
    if d.pending.Some? then m[phone := d.pending.value] else m
  }

  // ---------------------------------------------------------------------------
  // The handlers over the pending store
  // ---------------------------------------------------------------------------

  /** `confirmPendingExpense` on the store: clear first, then write and notify. */
  method ConfirmPending(store: Store, env: Env, phone: string, e: Entry) returns (o: Outcome)
    modifies store
    ensures Step(store.entries, o) == Confirm(old(store.entries), env, phone, e)
  {
    store.Clear(phone);
    var doc := ConfirmedDoc(e);
    var notice := None;
    if e.data.kind != ProviderExpense {
      var projectName := if e.data.project.Some? then e.data.project.value.name else "";
      notice := NotifyClient(env.projects, doc.projectId, e.data.amount, projectName, e.data.kind);
    }
    o := Outcome(Registered(e.data.kind), Some(doc), notice);
  }

  /** `completePendingExpense` on the store: an unknown tag leaves the entry in place. */
  method CompletePending(store: Store, env: Env, phone: string, e: Entry, tag: string) returns (o: Outcome)
    modifies store
    ensures Step(store.entries, o) == Complete(old(store.entries), env, phone, e, tag)
  {
    var project := FindProjectByTag(env.projects, e.userId, tag);
    if project.None? {
      return Say(UnknownProject(tag));
    }
    var p := project.value;
    store.Clear(phone);
    var doc := ExpenseDoc(p.id, e.userId, e.data.title, e.data.description, e.data.amount, e.data.category,
      e.data.kind, OrNull(e.data.transcription), "[Audio] " + e.data.note);
    o := Outcome(RegisteredFromAudio, Some(doc), NotifyClient(env.projects, p.id, e.data.amount, p.name, Expense));
  }

  /** `processMessage`: one text message from `phone` at time `now`. */
  method ProcessMessage(store: Store, env: Env, phone: string, text: string, now: int, answer: string) returns (o: Outcome)
    modifies store
    ensures Step(store.entries, o) == Dispatch(old(store.entries), env, phone, text, now, answer)
  {
    var normalized := Lower(Trim(text));
    var pending := store.Get(phone, now);
    if pending.Some? && pending.value.pendingConfirmation {
      if normalized in YesTokens {
        o := ConfirmPending(store, env, phone, pending.value);
        return;
      }
      if normalized in NoTokens {
        store.Clear(phone);
        return Say(Cancelled);
      }
    }
    if IsBareTag(Trim(text)) && pending.Some? && !pending.value.pendingConfirmation {
      o := CompletePending(store, env, phone, pending.value, Lower(Trim(text)[1..]));
      return;
    }
    o := Command(env, phone, text, answer);
  }

  /** `processAudioMessage`: the decision, then the store write it calls for. */
  method ProcessAudio(store: Store, env: Env, phone: string, caption: string, now: int, downloaded: bool, transcript: Option<Transcript>, answer: string)
    returns (reply: Reply)
    modifies store
    ensures reply == AudioDecision(env, phone, caption, now, downloaded, transcript, answer).reply
    ensures store.entries == Apply(old(store.entries), phone, AudioDecision(env, phone, caption, now, downloaded, transcript, answer))
  {
    var d := AudioDecision(env, phone, caption, now, downloaded, transcript, answer);
    if d.pending.Some? {
      var e := d.pending.value;
      if e.pendingConfirmation {
        store.SetConfirmation(phone, e.userId, e.data, now);
      } else {
        store.SetPending(phone, e.userId, e.data, now);
      }
    }
    reply := d.reply;
  }

  /** `processImageMessage`: the decision, then the store write it calls for. */
  method ProcessImage(store: Store, env: Env, phone: string, caption: string, now: int, downloaded: bool, receipt: Option<Receipt>, answer: string)
    returns (reply: Reply)
    modifies store
    ensures reply == ImageDecision(env, phone, caption, now, downloaded, receipt, answer).reply
    ensures store.entries == Apply(old(store.entries), phone, ImageDecision(env, phone, caption, now, downloaded, receipt, answer))
  {
    var d := ImageDecision(env, phone, caption, now, downloaded, receipt, answer);
    if d.pending.Some? {
      var e := d.pending.value;
      store.SetConfirmation(phone, e.userId, e.data, now);
    }
    reply := d.reply;
  }

  // ---------------------------------------------------------------------------
  // Properties of the dispatch
  // ---------------------------------------------------------------------------

  /** Every entry awaits confirmation exactly when its draft already has a project. */
  predicate WellFormed(m: map<string, Entry>) {
    forall q :: q in m ==> (m[q].pendingConfirmation <==> m[q].data.project.Some?)
  }

  /** Text messages, media decisions and timers all keep the store well formed. */
  lemma StepsKeepWellFormed(m: map<string, Entry>, env: Env, phone: string, text: string, caption: string, now: int,
                            answer: string, downloaded: bool, transcript: Option<Transcript>, receipt: Option<Receipt>,
                            stamp: int, confirmationOnly: bool)
    requires WellFormed(m)
    ensures WellFormed(Dispatch(m, env, phone, text, now, answer).entries)
    ensures WellFormed(Apply(m, phone, AudioDecision(env, phone, caption, now, downloaded, transcript, answer)))
    ensures WellFormed(Apply(m, phone, ImageDecision(env, phone, caption, now, downloaded, receipt, answer)))
    ensures WellFormed(Evicted(m, phone, stamp, confirmationOnly))
  {
    SubMapKeepsWellFormed(m, Dispatch(m, env, phone, text, now, answer).entries);
    var audio := AudioDecision(env, phone, caption, now, downloaded, transcript, answer);
    if audio.pending.Some? {
      InsertKeepsWellFormed(m, phone, audio.pending.value);
    }
    var image := ImageDecision(env, phone, caption, now, downloaded, receipt, answer);
    if image.pending.Some? {
      InsertKeepsWellFormed(m, phone, image.pending.value);
    }
    SubMapKeepsWellFormed(m, Evicted(m, phone, stamp, confirmationOnly));
  }

  /** Dropping entries keeps the store well formed. */
  lemma SubMapKeepsWellFormed(m: map<string, Entry>, r: map<string, Entry>)
    requires WellFormed(m)
    requires forall q :: q in r ==> q in m && r[q] == m[q]
    ensures WellFormed(r)
  {
  }

  /** Storing a well-formed entry keeps the store well formed. */
  lemma InsertKeepsWellFormed(m: map<string, Entry>, phone: string, e: Entry)
    requires WellFormed(m)
    requires e.pendingConfirmation <==> e.data.project.Some?
    ensures WellFormed(m[phone := e])
  {
  }

  /**
   * A yes to an entry awaiting confirmation clears the entry and writes its
   * draft into the draft's project; the client is notified unless the draft
   * is the provider's own expense.
   */
  lemma YesConfirms(m: map<string, Entry>, env: Env, phone: string, text: string, now: int, answer: string)
    requires WellFormed(m)
    requires AwaitsConfirmation(m, phone, now) && Lower(Trim(text)) in YesTokens
    ensures var r := Dispatch(m, env, phone, text, now, answer);
      && r.entries == m - {phone}
      && r.outcome.written == Some(ConfirmedDoc(m[phone]))
      && r.outcome.written.value.projectId == m[phone].data.project.value.id
      && r.outcome.reply == Registered(m[phone].data.kind)
      && (m[phone].data.kind == ProviderExpense ==> r.outcome.notice.None?)
      && (m[phone].data.kind != ProviderExpense ==>
            r.outcome.notice == NotifyClient(env.projects, m[phone].data.project.value.id, m[phone].data.amount,
              m[phone].data.project.value.name, m[phone].data.kind))
  {
  }

  /** A no to an entry awaiting confirmation clears it, and nothing is written. */
  lemma NoCancels(m: map<string, Entry>, env: Env, phone: string, text: string, now: int, answer: string)
    requires AwaitsConfirmation(m, phone, now) && Lower(Trim(text)) in NoTokens
    ensures Dispatch(m, env, phone, text, now, answer) == Step(m - {phone}, Say(Cancelled))
  {
    var normalized := Lower(Trim(text));
    assert normalized !in YesTokens;
  }

  /**
   * Outside the two replies an entry waits for (a yes or no to a confirmation,
   * a bare `#tag` to a project choice), the store is left as the lazy expiry
   * of the read leaves it, and the message goes to the commands.
   */
  lemma StoreUntouchedOtherwise(m: map<string, Entry>, env: Env, phone: string, text: string, now: int, answer: string)
    requires !(AwaitsConfirmation(m, phone, now) && Lower(Trim(text)) in YesTokens + NoTokens)
    requires !(AwaitsProject(m, phone, now) && IsBareTag(Trim(text)))
    ensures Dispatch(m, env, phone, text, now, answer) == Step(AfterLookup(m, phone, now), Command(env, phone, text, answer))
  {
  }

  /**
   * A bare `#tag` naming an active project of the user completes an entry
   * awaiting a project: the entry is cleared and its draft is written into
   * that project as an audio expense, and the project's client is notified.
   */
  lemma BareTagCompletes(m: map<string, Entry>, env: Env, phone: string, text: string, now: int, answer: string)
    requires AwaitsProject(m, phone, now) && IsBareTag(Trim(text))
    requires FindProjectByTag(env.projects, m[phone].userId, Lower(Trim(text)[1..])).Some?
    ensures var r := Dispatch(m, env, phone, text, now, answer);
      var p := FindProjectByTag(env.projects, m[phone].userId, Lower(Trim(text)[1..])).value;
      var e := m[phone];
      && p in env.projects && p.providerId == e.userId && p.status == Active && p.tag == Lower(Trim(text)[1..])
      && r.entries == m - {phone}
      && r.outcome.reply == RegisteredFromAudio
      && r.outcome.written.Some?
      && r.outcome.written.value.projectId == p.id
      && r.outcome.written.value.providerId == e.userId
      && r.outcome.written.value.title == e.data.title
      && r.outcome.written.value.amount == e.data.amount
      && r.outcome.written.value.originalMessage == "[Audio] " + e.data.note
      && r.outcome.notice == NotifyClient(env.projects, p.id, e.data.amount, p.name, Expense)
  {
  }

  /**
   * The pattern's groups for `<word> $<amount> <rest>`, with the command word
   * written in any case: the amount text and the whole rest.
   */
  lemma CommandAmountLineOfParts(head: string, word: string, a: string, rest: string, spaced: bool)
    requires |head| == |word| && Lower(head) == word
    requires a != [] && AllAmountChars(a)
    requires rest != [] && !IsSpace(rest[0]) && NoLineTerminators(rest)
    ensures CommandAmountLine(head + " $" + a + " " + rest, word, spaced) == Some(AmountLine(a, rest))
  {
    var t := head + " $" + a + " " + rest;
    AmountOfParts(head, a, rest);
    RestOfParts(head, a, rest);
    assert t[..|head|] == head;
  }

  /** In `<head> $<amount> <rest>` the dollar sign follows one blank and the amount run follows it. */
  lemma AmountOfParts(head: string, a: string, rest: string)
    requires a != [] && AllAmountChars(a)
    ensures var t := head + " $" + a + " " + rest;
      var n := |head|;
      && SkipSpaces(t, n) == n + 1 && t[n + 1] == '$'
      && SkipSpaces(t, n + 2) == n + 2
      && AmountRun(t, n + 2) == n + 2 + |a|
      && t[n + 2..n + 2 + |a|] == a
  {
    var t := head + " $" + a + " " + rest;
    var n := |head|;
    var p4 := n + 2 + |a|;
    assert t[n] == ' ' && t[n + 1] == '$' && t[n + 2] == a[0];
    SkipSpacesOver(t, n, n + 1);
    assert !IsSpace(a[0]) by { assert IsAmountChar(a[0]); }
    SkipSpacesOver(t, n + 2, n + 2);
    assert forall k :: n + 2 <= k < p4 ==> t[k] == a[k - n - 2];
    assert t[p4] == ' ';
    AmountRunOver(t, n + 2, p4);
    assert t[n + 2..p4] == a;
  }

  /** In `<head> $<amount> <rest>` one blank follows the amount and the rest runs to the end. */
  lemma RestOfParts(head: string, a: string, rest: string)
    requires rest != [] && !IsSpace(rest[0]) && NoLineTerminators(rest)
    ensures var t := head + " $" + a + " " + rest;
      var p4 := |head| + 2 + |a|;
      && SkipSpaces(t, p4) == p4 + 1
      && LineEnd(t, p4 + 1) == |t|
      && t[p4 + 1..LineEnd(t, p4 + 1)] == rest
  {
    var t := head + " $" + a + " " + rest;
    var p4 := |head| + 2 + |a|;
    assert t[p4] == ' ' && t[p4 + 1] == rest[0];
    SkipSpacesOver(t, p4, p4 + 1);
    assert forall k :: p4 + 1 <= k < |t| ==> t[k] == rest[k - p4 - 1];
    assert LineEnd(t, p4 + 1) == |t|;
    assert t[p4 + 1..|t|] == rest;
  }

  /** Such a line starts with the command word and a blank, and is trimmed when its ends are not blank. */
  lemma CommandWordOfParts(head: string, word: string, tail: string)
    requires |head| == |word| && Lower(head) == word
    requires tail != [] && tail[0] == ' '
    ensures StartsWith(Lower(head + tail), word + " ")
    ensures head != [] && !IsSpace(head[0]) && !IsSpace(tail[|tail| - 1]) ==> Trim(head + tail) == head + tail
  {
    var t := head + tail;
    assert Lower(t)[..|head| + 1] == word + " ";
    if head != [] && !IsSpace(head[0]) && !IsSpace(tail[|tail| - 1]) {
      assert t[0] == head[0] && t[|t| - 1] == tail[|tail| - 1];
      TrimOfTrimmed(t);
    }
  }

  /** The pieces of the worked PAGO example: `PAGO $5000 #flores3b`. */
  lemma PagoPieces(text: string, g: string)
    requires text == "PAGO $5000 #flores3b" && g == "flores3b"
    ensures text == "PAGO" + " $" + "5000" + " " + ("#" + g)
    ensures text == "PAGO" + (" $" + "5000" + " " + ("#" + g))
    ensures Lower("PAGO") == "pago" && !IsSpace('P')
  {
  }

  /** The amount of the worked PAGO example. */
  lemma FiveThousand()
    ensures AllAmountChars("5000") && ParseLocalAmount("5000") == Some(5000.0)
  {
    var d1 := ['5'];
    DigitsValueAppend([], '5');
    assert [] + ['5'] == d1;
    DigitsValueAppend(d1, '0');
    var d2 := d1 + ['0'];
    DigitsValueAppend(d2, '0');
    var d3 := d2 + ['0'];
    DigitsValueAppend(d3, '0');
    var d4 := d3 + ['0'];
    assert DigitsValue(d4) == 5000;
    assert d4 == "5000";
    DigitsAmount(d4);
  }

  /** The worked PAGO example is trimmed and starts with the command word. */
  lemma PagoLineWord(text: string)
    requires text == "PAGO $5000 #flores3b"
    ensures Trim(text) == text && StartsWith(Lower(text), "pago ")
  {
    PagoPieces(text, "flores3b");
    var tail := " $" + "5000" + " " + ("#" + "flores3b");
    assert tail[0] == ' ' && tail[|tail| - 1] == 'b';
    CommandWordOfParts("PAGO", "pago", tail);
  }

  /** The command line of the worked PAGO example. */
  lemma PagoLineExample(text: string)
    requires text == "PAGO $5000 #flores3b"
    ensures ParseCommandLine(text, "pago", false) == Ok(CommandLine(5000.0, "flores3b", ""))
  {
    var g := "flores3b";
    PagoPieces(text, g);
    PagoLineWord(text);
    ExampleTag(g);
    BareTag(g);
    var tag := "#" + g;
    TrimOfTrimmed(tag);
    assert !IsSpace(tag[0]);
    FiveThousand();
    CommandAmountLineOfParts("PAGO", "pago", "5000", tag, false);
  }

  /**
   * The worked PAGO example: from a linked phone whose user has an active
   * project tagged `flores3b`, `PAGO $5000 #flores3b` writes a payment of 5000
   * titled `Pago del cliente` into that project, and the client, if the
   * project has one, is told of a `pago`.
   */
  lemma PagoExample(env: Env, phone: string, text: string, answer: string, userId: string, p: Project)
    requires text == "PAGO $5000 #flores3b"
    requires LinkedUser(env.links, phone) == Some(userId)
    requires FindProjectByTag(env.projects, userId, "flores3b") == Some(p)
    ensures var o := Command(env, phone, text, answer);
      && o.reply == Registered(Payment)
      && o.written == Some(ExpenseDoc(p.id, userId, "Pago del cliente", "", 5000.0, "pago", Payment, None, text))
      && o.notice == NotifyClient(env.projects, p.id, 5000.0, p.name, Payment)
      && (o.notice.Some? ==> o.notice.value.noun == "pago")
  {
    PagoLineWord(text);
    PagoLineExample(text);
  }

  /** A bare `#tag` that names no active project of the user leaves the awaiting entry in place. */
  lemma UnknownTagKeepsEntry(m: map<string, Entry>, env: Env, phone: string, text: string, now: int, answer: string)
    requires AwaitsProject(m, phone, now) && IsBareTag(Trim(text))
    requires FindProjectByTag(env.projects, m[phone].userId, Lower(Trim(text)[1..])).None?
    ensures Dispatch(m, env, phone, text, now, answer) == Step(m, Say(UnknownProject(Lower(Trim(text)[1..]))))
  {
  }

  /** A character that lower-cases to an ASCII letter is no dollar sign, amount character, blank or `#`. */
  lemma LetterIsNoMarker(c: char)
    requires 'a' <= ToLowerChar(c) <= 'z'
    ensures c != '$' && c != '#' && !IsAmountChar(c) && !IsSpace(c)
  {
  }

  /** A trimmed text that starts with neither `$`, a blank nor an amount character has no amount pattern. */
  lemma NoAmountLine(t: string)
    requires IsTrimmed(t) && t != [] && t[0] != '$' && !IsAmountChar(t[0])
    ensures SplitAmountLine(t).None?
  {
    assert !IsSpace(t[0]);
    assert SkipSpaces(t, 0) == 0;
    assert AmountRun(t, 0) == 0;
  }

  /** A message whose first character is a letter has no amount pattern, so it is no expense line. */
  lemma LetterLedLineIsNotAnExpense(text: string)
    requires Trim(text) != [] && 'a' <= ToLowerChar(Trim(text)[0]) <= 'z'
    ensures ParseExpenseMessage(text).None?
  {
    var t := Trim(text);
    LetterIsNoMarker(t[0]);
    NoAmountLine(t);
  }

  /** None of the command words of `processMessage` applies to the lower-cased text. */
  predicate NoCommandWord(normalized: string) {
    && !StartsWith(normalized, "vincular ")
    && normalized != "desvincular" && normalized != "ayuda" && normalized != "help" && normalized != "proyectos"
    && !StartsWith(normalized, "resumen ") && !StartsWith(normalized, "pago ") && !StartsWith(normalized, "propio ")
  }

  /** A text that is no command word is handled as a typed expense line. */
  lemma PlainTextIsExpenseLine(env: Env, phone: string, text: string, answer: string)
    requires NoCommandWord(Lower(Trim(text)))
    ensures Command(env, phone, text, answer) == ExpenseLine(env, phone, text, answer)
  {
  }

  /** The yes and no words start with a letter and are no command words. */
  lemma TokensAreNoCommands(normalized: string)
    requires normalized in YesTokens + NoTokens
    ensures normalized != [] && 'a' <= normalized[0] <= 'z'
    ensures NoCommandWord(normalized)
  {
    var k :| 0 <= k < |YesTokens + NoTokens| && (YesTokens + NoTokens)[k] == normalized;
    if k == 0 { assert normalized == "si"; }
    else if k == 1 { assert normalized == "s\U{ED}"; }
    else if k == 2 { assert normalized == "ok"; }
    else if k == 3 { assert normalized == "dale"; }
    else if k == 4 { assert normalized == "yes"; }
    else if k == 5 { assert normalized == "confirmar"; }
    else if k == 6 { assert normalized == "no"; }
    else if k == 7 { assert normalized == "cancelar"; }
    else { assert normalized == "cancel"; }
  }

  /**
   * A yes or a no with no entry awaiting confirmation is no command and no
   * expense line: a linked sender is told the message was not understood,
   * and the store only loses an expired entry.
   */
  lemma StrayTokenNotUnderstood(m: map<string, Entry>, env: Env, phone: string, text: string, now: int, answer: string)
    requires !AwaitsConfirmation(m, phone, now) && Lower(Trim(text)) in YesTokens + NoTokens
    requires LinkedUser(env.links, phone).Some?
    ensures Dispatch(m, env, phone, text, now, answer) == Step(AfterLookup(m, phone, now), Say(NotUnderstood))
  {
    var t := Trim(text);
    TokensAreNoCommands(Lower(t));
    LetterIsNoMarker(t[0]);
    assert !IsBareTag(t);
    LetterLedLineIsNotAnExpense(text);
    PlainTextIsExpenseLine(env, phone, text, answer);
    StoreUntouchedOtherwise(m, env, phone, text, now, answer);
  }

  // ---------------------------------------------------------------------------
  // Properties of the audio decisions
  // ---------------------------------------------------------------------------

  /** An audio whose amount is missing, zero or negative leaves no pending entry. */
  lemma AudioRejectsNonPositive(env: Env, phone: string, caption: string, now: int, downloaded: bool, tr: Transcript, answer: string)
    requires tr.amount.None? || tr.amount.value <= 0.0
    ensures AudioDecision(env, phone, caption, now, downloaded, Some(tr), answer).pending.None?
  {
  }

  /** A user without active projects gets no pending entry from an audio: no project can be resolved. */
  lemma AudioWithoutActiveProjects(env: Env, phone: string, caption: string, now: int, downloaded: bool, transcript: Option<Transcript>, answer: string)
    requires LinkedUser(env.links, phone).Some?
    requires ActiveProjects(env.projects, LinkedUser(env.links, phone).value) == []
    ensures AudioDecision(env, phone, caption, now, downloaded, transcript, answer).pending.None?
  {
  }

  /**
   * With exactly one active project the resolution always picks it, so an
   * accepted audio (see `AudioDecision`) awaits confirmation for that project.
   */
  lemma SingleProjectResolves(projects: seq<Project>, userId: string, captionTag: Option<string>, reference: Option<string>)
    requires |ActiveProjects(projects, userId)| == 1
    ensures ResolveAudioProject(projects, userId, captionTag, reference) == Some(ActiveProjects(projects, userId)[0])
  {
    var active := ActiveProjects(projects, userId);
    var r := ResolveAudioProject(projects, userId, captionTag, reference);
    assert r.value in active;
  }




  // ---------------------------------------------------------------------------
  // Outgoing numbers
  // ---------------------------------------------------------------------------

  /**
   * `normalizePhoneNumber`, applied to every recipient: an Argentine mobile
   * number in international form (`549` and thirteen digits) loses the mobile
   * `9`; every other number is sent as it is.
   */
  function NormalizePhoneNumber(phone: string): (r: string)
    ensures StartsWith(phone, "549") && |phone| == 13 ==> |r| == 12 && r == phone[..2] + phone[3..]
    ensures !(StartsWith(phone, "549") && |phone| == 13) ==> r == phone
    ensures StartsWith(r, "54") <==> StartsWith(phone, "54")
  {
    if StartsWith(phone, "549") && |phone| == 13 then "54" + phone[3..] else phone
  }

  /** A normalised number is left alone by a second normalisation. */
  lemma NormalizePhoneNumberIdempotent(phone: string)
    ensures NormalizePhoneNumber(NormalizePhoneNumber(phone)) == NormalizePhoneNumber(phone)
  {
  }
}
