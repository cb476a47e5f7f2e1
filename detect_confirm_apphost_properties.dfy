/**
 * Properties of the app-host confirmation step that relate several calls or
 * follow from the specifications in module Repository.
 */
module RepositoryProperties {
  import opened Repository

  /** How many times `line` occurs in `lines`. */
  function Occurrences(lines: seq<string>, line: string): nat
  {
    if lines == [] then 0
    else (if lines[0] == line then 1 else 0) + Occurrences(lines[1..], line)
  }

  lemma {:induction false} OccurrencesAppend(a: seq<string>, b: seq<string>, line: string)
    ensures Occurrences(a + b, line) == Occurrences(a, line) + Occurrences(b, line)
  {
    if a != [] {
      assert (a + b)[1..] == a[1..] + b;
      OccurrencesAppend(a[1..], b, line);
    } else {
      assert a + b == b;
    }
  }

  /**
   * Init prints the fallback warning exactly once when it read a number other than
   * 1 and 2, and never otherwise (in particular not when the read failed).
   */
  lemma InitWarnsOnlyOnFallback(s: Session, host: Project, root: string, read: ReadResult)
    ensures Occurrences(InitStep(s, host, root, read).printed, InvalidSelectionWarning) ==
      if read.ReadOk? && read.value != 1 && read.value != 2 then 1 else 0
  {
    var printed := InitStep(s, host, root, read).printed;
    var prompt := SelectHostPrompt;
    assert Occurrences(prompt, InvalidSelectionWarning) == 0 by {
      assert |InvalidSelectionWarning| > |SelectHostPrompt[0]|;
      assert Occurrences(prompt[2..], InvalidSelectionWarning) == 0 by {
        assert prompt[2..][1..] == [];
      }
      assert prompt[1..][1..] == prompt[2..];
    }
    match read
    case ReadErr(cause) =>
      var line: string := ReadErrorPrefix + cause;
      var tail: seq<string> := [line][1..];
      assert line[0] == 'E';
      assert InvalidSelectionWarning[0] == 'I';
      assert tail == [];
      OccurrencesAppend(prompt, [line], InvalidSelectionWarning);
    case ReadOk(value) =>
      if value != 1 && value != 2 {
        assert |[InvalidSelectionWarning][1..]| == 0;
        OccurrencesAppend(prompt, [InvalidSelectionWarning], InvalidSelectionWarning);
      }
  }

  /**
   * render names a hosting product exactly when the selection is 1 or 2:
   * Azure App Service for 1 and Azure Container Apps for 2.
   */
  lemma RenderNamesProduct(s: Session, product: string)
    ensures HostingTarget(product) in RenderLines(s) <==>
      (s.userSelection == 1 && product == AppServiceProduct) ||
      (s.userSelection == 2 && product == ContainerAppsProduct)
  {
    var lines := RenderLines(s);
    if HostingTarget(product) in lines {
      var k :| 0 <= k < |lines| && lines[k] == HostingTarget(product);
      assert lines[k] in lines[..4] || k == 4;
    }
  }

  /** An answer other than 0 and 1 costs one more render and one more prompt, and changes nothing else. */
  lemma ConfirmRepromptsOnOtherIndex(s: Session, index: int, rest: seq<SelectResult>)
    requires index != 0 && index != 1
    ensures var again, later := RunConfirm(s, [SelectOk(index)] + rest), RunConfirm(s, rest);
      again.outcome == later.outcome && again.consumed == later.consumed + 1 &&
      again.usage == later.usage && again.calls == Iteration(s) + later.calls
  {
    assert ([SelectOk(index)] + rest)[1..] == rest;
  }

  /**
   * A run of Confirm that did not end in an error recorded the continue answer:
   * it confirmed exactly when its last answer was index 0, and only then recorded usage.
   */
  lemma ConfirmedIffIndexZero(s: Session, answers: seq<SelectResult>)
    ensures var r := RunConfirm(s, answers);
      (r.outcome.Confirmed? <==> 0 < r.consumed && answers[r.consumed - 1] == SelectOk(0)) &&
      (|r.usage| == 1 <==> r.outcome.Confirmed?)
  {
    var r := RunConfirm(s, answers);
    if r.outcome.AwaitingAnswer? && 0 < r.consumed {
      assert Reprompts(answers[r.consumed - 1]);
    }
  }

  /**
   * A successful read followed by a confirmation records two usage events, the
   * detected one and then the confirmed one, both carrying the app host's language.
   */
  lemma InitThenConfirmRecordsTwoEvents(s: Session, host: Project, root: string, read: ReadResult, answers: seq<SelectResult>)
    requires read.ReadOk?
    requires RunConfirm(InitStep(s, host, root, read).session, answers).outcome.Confirmed?
    ensures InitStep(s, host, root, read).usage + RunConfirm(InitStep(s, host, root, read).session, answers).usage ==
      [UsageEvent(AppInitDetectedServices, [host.language]), UsageEvent(AppInitConfirmedServices, [host.language])]
  {
  }

  /**
   * After a successful read every round of Confirm shows five messages and the
   * prompt, the fifth message naming the product for the stored selection.
   */
  lemma RoundsAfterInitExplainHosting(s: Session, host: Project, root: string, read: ReadResult)
    requires read.ReadOk?
    ensures var round := Iteration(InitStep(s, host, root, read).session);
      |round| == 6 &&
      round[4] == Say(HostingTarget(if read.value == 2 then ContainerAppsProduct else AppServiceProduct)) &&
      round[5] == Ask(ConfirmPrompt, ConfirmOptions)
  {
  }

  /**
   * A failed read leaves a fresh session untouched: Confirm then shows four messages
   * per round, no hosting product, and index 0 still succeeds, recording the empty
   * language of the unset app host.
   */
  lemma ReadErrorLeavesSelectionUnset(root: string, host: Project, rootArg: string, cause: string)
    ensures var start := Session(ZeroProject, root, 0);
      var after := InitStep(start, host, rootArg, ReadErr(cause)).session;
      after.userSelection == 0 && |RenderLines(after)| == 4 &&
      RunConfirm(after, [SelectOk(0)]) ==
        ConfirmRun(Confirmed, 1, Iteration(after), [UsageEvent(AppInitConfirmedServices, [""])])
  {
    assert [SelectOk(0)][1..] == [];
  }

  /**
   * Reading 9 falls back to App Service with one warning; cancelling then returns
   * the "cancelled due to user input" error and records only the detection event.
   */
  lemma InvalidSelectionThenCancel(s: Session, host: Project, root: string)
    ensures var init := InitStep(s, host, root, ReadOk(9));
      var run := RunConfirm(init.session, [SelectOk(1)]);
      init.session.userSelection == 1 &&
      Occurrences(init.printed, InvalidSelectionWarning) == 1 &&
      run.outcome == Failed(Cancelled) && ErrorText(run.outcome.err) == "cancelled due to user input" &&
      init.usage + run.usage == [UsageEvent(AppInitDetectedServices, [host.language])]
  {
    InitWarnsOnlyOnFallback(s, host, root, ReadOk(9));
    assert [SelectOk(1)][1..] == [];
  }

  /**
   * The cancellation error is a bare formatted error: by its text a caller cannot
   * tell it apart from a `Select` error that carries the same message.
   */
  lemma CancellationTextIsAmbiguous()
    ensures SelectFailed(CancelledText) != Cancelled
    ensures ErrorText(SelectFailed(CancelledText)) == ErrorText(Cancelled) == "cancelled due to user input"
  {
  }

  /**
   * render changes no field, so rendering twice appends the same messages twice:
   * its output is a function of the state alone.
   */
  method RenderTwice(d: DetectConfirmAppHost)
    modifies d`console
    ensures d.State() == old(d.State())
    ensures d.console == old(d.console) + Said(RenderLines(d.State())) + Said(RenderLines(d.State()))
  {
    var first := d.Render();
    var second := d.Render();
  }
}
