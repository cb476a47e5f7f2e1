/**
 * A model of the app-host confirmation step of `azd init`
 * (cli/azd/internal/repository/detect_confirm_apphost.go).
 *
 * The effects of the Go code are made explicit:
 *  - the integer read from standard input is a `ReadResult` argument;
 *  - the answers the console's `Select` would give are a finite sequence of `SelectResult`s;
 *  - lines printed with `fmt.Println`, calls to the console and telemetry events are
 *    appended to three ghost logs of the `DetectConfirmAppHost` object.
 * The pure functions `InitStep`, `RenderLines` and `RunConfirm` specify what the methods do;
 * the methods are proved against them and the lemmas in module RepositoryProperties state
 * what follows for callers.
 */
module Repository {

  datatype Option<T> = None | Some(value: T)

  /** The part of an appdetect.Project this component reads: its language and its path. */
  datatype Project = Project(language: string, path: string)

  /** Go's zero value of appdetect.Project, which the struct holds before Init assigns one. */
  const ZeroProject := Project("", "")

  /** Outcome of `fmt.Scan` of one integer from standard input. */
  datatype ReadResult = ReadErr(cause: string) | ReadOk(value: int)

  /** Outcome of one `console.Select` call: the chosen index, or the error it returned. */
  datatype SelectResult = SelectErr(cause: string) | SelectOk(index: int)

  /** The two telemetry attribute keys this component records (fields.AppInit...). */
  datatype UsageKey = AppInitDetectedServices | AppInitConfirmedServices

  /** One `tracing.SetUsageAttributes(key.StringSlice(values))` call. */
  datatype UsageEvent = UsageEvent(key: UsageKey, values: seq<string>)

  /**
   * One line passed to `console.Message`. Text styling (bold, colour, highlight) and the
   * helpers projectDisplayName and relSafe are not modelled: each line records the values
   * it is built from.
   */
  datatype Message =
    | Heading(title: string)                   // "\n" + bold(title) + "\n"
    | ProjectName(project: Project)            // "  " + blue(projectDisplayName(project))
    | DetectedIn(root: string, path: string)   // "  Detected in: " + highlight(relSafe(root, path))
    | Blank                                    // ""
    | HostingTarget(product: string)           // "azd will generate ... using " + magenta(product) + ".\n"

  /** A call made on the console collaborator. */
  datatype ConsoleCall =
    | Say(message: Message)
    | Ask(prompt: string, options: seq<string>)

  /** The errors `Confirm` can return. */
  datatype Error =
    | Cancelled                   // fmt.Errorf("cancelled due to user input")
    | SelectFailed(cause: string) // the error of console.Select, returned unchanged

  /**
   * How `Confirm` ends: it returns nil, it returns an error, or (when the given answers
   * run out) it is still blocked in `Select` waiting for one.
   */
  datatype ConfirmOutcome = Confirmed | Failed(err: Error) | AwaitingAnswer

  /** The fields of detectConfirmAppHost that the logic reads, as a value. */
  datatype Session = Session(appHost: Project, root: string, userSelection: int)

  const SelectHostPrompt: seq<string> := ["Select the App Host:", "1. App Services", "2. Container Apps"]
  const ReadErrorPrefix: string := "Error reading selection: "
  const InvalidSelectionWarning: string := "Invalid selection. " + "Defaulting to App Services."
  const DetectedServicesTitle: string := "Detected services:"
  const AppServiceProduct: string := "Azure App Service"
  const ContainerAppsProduct: string := "Azure Container Apps"
  const ConfirmPrompt: string := "Select an option"
  const ConfirmOptions: seq<string> := ["Confirm and continue initializing my app", "Cancel and exit"]
  const CancelledText: string := "cancelled due to user input"

  /** The text of the error `Confirm` returns (what Go's `err.Error()` gives). */
  function ErrorText(e: Error): string
  {
    match e
    case Cancelled => CancelledText
    case SelectFailed(cause) => cause
  }

  /** The usage event `captureUsage(key)` records for the given app host. */
  function Usage(key: UsageKey, host: Project): UsageEvent
  {
    UsageEvent(key, [host.language])
  }

  // ---------------------------------------------------------------------------
  // Init

  /** What `Init` does to the session and which lines and events it produces. */
  datatype InitEffect = InitEffect(session: Session, printed: seq<string>, usage: seq<UsageEvent>)

  /**
   * Specification of `Init(appHost, root)` given the result of the read: the
   * three prompt lines are always printed; a read error is printed and nothing
   * else happens; 1 and 2 are kept; any other number falls back to 1 with a
   * warning; after a successful read the app host is stored and one
   * AppInitDetectedServices event is recorded. The `root` argument is not used:
   * the session's root stays what it was.
   */
  function InitStep(s: Session, host: Project, root: string, read: ReadResult): (r: InitEffect)
    ensures |r.printed| >= |SelectHostPrompt| && r.printed[..|SelectHostPrompt|] == SelectHostPrompt
    ensures r.session.root == s.root
    ensures read.ReadErr? ==>
      r.session == s && r.usage == [] && r.printed == SelectHostPrompt + [ReadErrorPrefix + read.cause]
    ensures read.ReadOk? ==>
      r.session.appHost == host &&
      (r.session.userSelection == 1 || r.session.userSelection == 2) &&
      r.usage == [UsageEvent(AppInitDetectedServices, [host.language])]
    ensures read.ReadOk? && (read.value == 1 || read.value == 2) ==>
      r.session.userSelection == read.value && r.printed == SelectHostPrompt
    ensures read.ReadOk? && read.value != 1 && read.value != 2 ==>
      r.session.userSelection == 1 && r.printed == SelectHostPrompt + [InvalidSelectionWarning]
  {
    match read
    case ReadErr(cause) =>
      InitEffect(s, SelectHostPrompt + [ReadErrorPrefix + cause], [])
    case ReadOk(selection) =>
      var detected := [Usage(AppInitDetectedServices, host)];
      if selection == 1 then
        InitEffect(s.(appHost := host, userSelection := selection), SelectHostPrompt, detected)
      else if selection == 2 then
        InitEffect(s.(appHost := host, userSelection := selection), SelectHostPrompt, detected)
      else
        InitEffect(s.(appHost := host, userSelection := 1), SelectHostPrompt + [InvalidSelectionWarning], detected)
  }

  // ---------------------------------------------------------------------------
  // render

  /**
   * The messages `render` writes: a heading, the project, where it was found, a
   * blank line and, only for selection 1 or 2, the Azure product it will be hosted on.
   */
  function RenderLines(s: Session): (lines: seq<Message>)
    ensures |lines| == if s.userSelection == 1 || s.userSelection == 2 then 5 else 4
    ensures lines[..4] == [Heading(DetectedServicesTitle), ProjectName(s.appHost), DetectedIn(s.root, s.appHost.path), Blank]
    ensures s.userSelection == 1 ==> lines[4] == HostingTarget(AppServiceProduct)
    ensures s.userSelection == 2 ==> lines[4] == HostingTarget(ContainerAppsProduct)
  {
    var common := [Heading(DetectedServicesTitle), ProjectName(s.appHost), DetectedIn(s.root, s.appHost.path), Blank];
    if s.userSelection == 1 then common + [HostingTarget(AppServiceProduct)]
    else if s.userSelection == 2 then common + [HostingTarget(ContainerAppsProduct)]
    else common
  }

  /** The messages as console calls. */
  function Said(messages: seq<Message>): seq<ConsoleCall>
  {
    seq(|messages|, i requires 0 <= i < |messages| => Say(messages[i]))
  }

  /** The console calls of one round of the Confirm loop: render, then the two-option Select. */
  function Iteration(s: Session): seq<ConsoleCall>
  {
    Said(RenderLines(s)) + [Ask(ConfirmPrompt, ConfirmOptions)]
  }

  /** `block` repeated `n` times. */
  function Repeat<T>(block: seq<T>, n: nat): seq<T>
  {
    if n == 0 then [] else block + Repeat(block, n - 1)
  }

  /** Concatenation is associative. */
  lemma AppendAssoc<T>(a: seq<T>, b: seq<T>, c: seq<T>)
    ensures (a + b) + c == a + (b + c)
  {
  }

  /** One more copy of the block can be added at either end. */
  lemma {:induction false} RepeatAppend<T>(block: seq<T>, n: nat)
    ensures Repeat(block, n + 1) == Repeat(block, n) + block
  {
    if n > 0 {
      RepeatAppend(block, n - 1);
    }
  }

  // ---------------------------------------------------------------------------
  // Confirm

  /** An answer on which the Confirm loop goes round again: an index other than 0 and 1. */
  predicate Reprompts(a: SelectResult)
  {
    a.SelectOk? && a.index != 0 && a.index != 1
  }

  /** The first `n` answers all send the loop round again. */
  predicate AllReprompt(answers: seq<SelectResult>, n: nat)
    requires n <= |answers|
  {
    forall j :: 0 <= j < n ==> Reprompts(answers[j])
  }

  /** How an answer that ends the loop ends it. */
  function Decision(a: SelectResult): (out: ConfirmOutcome)
    requires !Reprompts(a)
    ensures out.Confirmed? <==> a == SelectOk(0)
    ensures out == Failed(Cancelled) <==> a == SelectOk(1)
    ensures a.SelectErr? ==> out == Failed(SelectFailed(a.cause))
    ensures out.Failed? && out.err.SelectFailed? ==> a.SelectErr?
    ensures a == SelectOk(1) ==> out.Failed? && ErrorText(out.err) == "cancelled due to user input"
    ensures a.SelectErr? ==> out.Failed? && ErrorText(out.err) == a.cause
    ensures !out.AwaitingAnswer?
  {
    match a
    case SelectErr(cause) => Failed(SelectFailed(cause))
    case SelectOk(index) => if index == 0 then Confirmed else Failed(Cancelled)
  }

  /** What a run of the Confirm loop returns, how many answers it used, and what it logged. */
  datatype ConfirmRun = ConfirmRun(outcome: ConfirmOutcome, consumed: nat, calls: seq<ConsoleCall>, usage: seq<UsageEvent>)

  /**
   * Specification of `Confirm` on a session, given the answers `Select` will give.
   * The loop ends at the first answer that is an error, 0 or 1; every earlier answer
   * cost one more render and one more prompt; only index 0 records a usage event.
   */
  function RunConfirm(s: Session, answers: seq<SelectResult>): (r: ConfirmRun)
    ensures r.consumed <= |answers|
    ensures r.outcome.AwaitingAnswer? ==> r.consumed == |answers| && AllReprompt(answers, |answers|)
    ensures !r.outcome.AwaitingAnswer? ==>
      0 < r.consumed && AllReprompt(answers, r.consumed - 1) &&
      !Reprompts(answers[r.consumed - 1]) && r.outcome == Decision(answers[r.consumed - 1])
    ensures r.usage == if r.outcome.Confirmed? then [UsageEvent(AppInitConfirmedServices, [s.appHost.language])] else []
    ensures r.calls == Repeat(Iteration(s), if r.outcome.AwaitingAnswer? then r.consumed + 1 else r.consumed)
    decreases |answers|
  {
    if answers == [] then
      ConfirmRun(AwaitingAnswer, 0, Iteration(s), [])
    else if Reprompts(answers[0]) then
      var rest := RunConfirm(s, answers[1..]);
      ConfirmRun(rest.outcome, rest.consumed + 1, Iteration(s) + rest.calls, rest.usage)
    else
      var out := Decision(answers[0]);
      ConfirmRun(out, 1, Iteration(s), if out.Confirmed? then [Usage(AppInitConfirmedServices, s.appHost)] else [])
  }

  /**
   * After `i` answers that each sent the loop round again, the run is `i` rounds of
   * rendering and prompting followed by the run on the remaining answers.
   */
  lemma {:induction false} RunConfirmSkips(s: Session, answers: seq<SelectResult>, i: nat)
    requires i <= |answers| && AllReprompt(answers, i)
    ensures var whole, rest := RunConfirm(s, answers), RunConfirm(s, answers[i..]);
      whole.outcome == rest.outcome && whole.consumed == i + rest.consumed &&
      whole.usage == rest.usage && whole.calls == Repeat(Iteration(s), i) + rest.calls
  {
    if i > 0 {
      assert answers[1..][i - 1..] == answers[i..];
      RunConfirmSkips(s, answers[1..], i - 1);
      AppendAssoc(Iteration(s), Repeat(Iteration(s), i - 1), RunConfirm(s, answers[i..]).calls);
    }
  }

  /**
   * The loop ends at the first answer that does not send it round again: after
   * `i + 1` rounds, with that answer's decision, and records a usage event only
   * when the decision is to continue.
   */
  lemma RunConfirmDecided(s: Session, answers: seq<SelectResult>, i: nat)
    requires i < |answers| && AllReprompt(answers, i) && !Reprompts(answers[i])
    ensures RunConfirm(s, answers) ==
      ConfirmRun(Decision(answers[i]), i + 1, Repeat(Iteration(s), i + 1),
                 if answers[i] == SelectOk(0) then [UsageEvent(AppInitConfirmedServices, [s.appHost.language])] else [])
  {
  }

  /** When every answer sends the loop round again, it renders and prompts once more and then waits. */
  lemma RunConfirmAwaits(s: Session, answers: seq<SelectResult>)
    requires AllReprompt(answers, |answers|)
    ensures RunConfirm(s, answers) == ConfirmRun(AwaitingAnswer, |answers|, Repeat(Iteration(s), |answers| + 1), [])
  {
  }

  // ---------------------------------------------------------------------------
  // The detectConfirmAppHost struct

  class DetectConfirmAppHost {
    /** The app host that was found. */
    var appHost: Project
    /** The root directory of the project. */
    var root: string
    /** 1 for App Service, 2 for Container Apps; 0 until Init stores a selection. */
    var userSelection: int

    /** Lines written to standard output with fmt.Println. */
    ghost var stdout: seq<string>
    /** Calls made on the console collaborator. */
    ghost var console: seq<ConsoleCall>
    /** Usage attributes recorded with the tracing package. */
    ghost var usage: seq<UsageEvent>

    function State(): Session
      reads this`appHost, this`root, this`userSelection
    {
      Session(appHost, root, userSelection)
    }

    /**
     * A struct literal that sets `root` and the `console` collaborator: the given root,
     * a console that has not been called yet (its empty call log), and `AppHost` and
     * `UserSelection` at Go's zero values. Nothing in this component assigns `root` later.
     */
    constructor (root: string)
      ensures State() == Session(ZeroProject, root, 0)
      ensures stdout == [] && console == [] && usage == []
    {
      this.appHost := ZeroProject;
      this.root := root;
      this.userSelection := 0;
      this.stdout := [];
      this.console := [];
      this.usage := [];
    }

    /** Init initializes the state from the detected app host and the number the user typed. */
    method Init(host: Project, root: string, read: ReadResult)
      modifies this`appHost, this`userSelection, this`stdout, this`usage
      ensures State() == InitStep(old(State()), host, root, read).session
      ensures stdout == old(stdout) + InitStep(old(State()), host, root, read).printed
      ensures usage == old(usage) + InitStep(old(State()), host, root, read).usage
      ensures this.root == old(this.root) && console == old(console)
    {
      stdout := stdout + SelectHostPrompt;
      match read {
        case ReadErr(cause) =>
          stdout := stdout + [ReadErrorPrefix + cause];
          return;
        case ReadOk(selection) =>
          if selection == 1 {
            appHost := host;
            userSelection := selection;
          } else if selection == 2 {
            appHost := host;
            userSelection := selection;
          } else {
            stdout := stdout + [InvalidSelectionWarning];
            appHost := host;
            userSelection := 1;
          }
      }
      CaptureUsage(AppInitDetectedServices);
    }

    /** Records the language of the app host under the given key. */
    method CaptureUsage(key: UsageKey)
      modifies this`usage
      ensures usage == old(usage) + [UsageEvent(key, [appHost.language])]
    {
      usage := usage + [Usage(key, appHost)];
    }

    /**
     * Confirm shows the detected app host and asks the user to confirm or cancel,
     * asking again for any other answer.
     */
    method Confirm(answers: seq<SelectResult>) returns (outcome: ConfirmOutcome, consumed: nat)
      modifies this`console, this`usage
      ensures State() == old(State())
      ensures outcome == RunConfirm(old(State()), answers).outcome
      ensures consumed == RunConfirm(old(State()), answers).consumed
      ensures console == old(console) + RunConfirm(old(State()), answers).calls
      ensures usage == old(usage) + RunConfirm(old(State()), answers).usage
    {
      ghost var s := State();
      var i := 0;
      while true
        invariant i <= |answers| && AllReprompt(answers, i)
        invariant State() == s && usage == old(usage)
        invariant console == old(console) + Repeat(Iteration(s), i)
        decreases |answers| - i
      {
        // render never returns an error (see its contract), so the early
        // return on a render error is never taken.
        ghost var before := console;
        var renderErr := Render();
        console := console + [Ask(ConfirmPrompt, ConfirmOptions)];
        AppendAssoc(before, Said(RenderLines(s)), [Ask(ConfirmPrompt, ConfirmOptions)]);
        AppendAssoc(old(console), Repeat(Iteration(s), i), Iteration(s));
        RepeatAppend(Iteration(s), i);
        assert console == old(console) + Repeat(Iteration(s), i + 1);
        if i == |answers| {
          RunConfirmAwaits(s, answers);
          outcome, consumed := AwaitingAnswer, i;
          return;
        }
        var answer := answers[i];
        match answer {
          case SelectErr(cause) =>
            RunConfirmDecided(s, answers, i);
            outcome, consumed := Failed(SelectFailed(cause)), i + 1;
            return;
          case SelectOk(index) =>
            if index == 0 {
              RunConfirmDecided(s, answers, i);
              CaptureUsage(AppInitConfirmedServices);
              outcome, consumed := Confirmed, i + 1;
              return;
            } else if index == 1 {
              RunConfirmDecided(s, answers, i);
              outcome, consumed := Failed(Cancelled), i + 1;
              return;
            }
        }
        i := i + 1;
      }
    }

    /** Writes the summary of the detected app host to the console; never fails. */
    method Render() returns (err: Option<Error>)
      modifies this`console
      ensures err == None
      ensures console == old(console) + Said(RenderLines(State()))
    {
      console := console + [Say(Heading(DetectedServicesTitle))];
      console := console + [Say(ProjectName(appHost))];
      console := console + [Say(DetectedIn(root, appHost.path))];
      console := console + [Say(Blank)];
      if userSelection == 1 {
        console := console + [Say(HostingTarget(AppServiceProduct))];
      } else if userSelection == 2 {
        console := console + [Say(HostingTarget(ContainerAppsProduct))];
      }
      err := None;
    }
  }
}
