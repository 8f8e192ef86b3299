/**
 * The settings panel (src/components/article-params-form/ArticleParamsForm.tsx)
 * together with the host state it writes through `onApplySettings`.
 *
 * `Page` is a snapshot of everything the two components hold: the panel's open
 * flag, whether its document mousedown listener is registered, its draft, and the
 * host's applied configuration. `Step` says what one event does to a snapshot;
 * the class `ArticleParamsForm` below keeps the same state in fields and each of
 * its handlers is proved to perform exactly one `Step`.
 */
module ParamsForm {
  import opened ArticleProps
  import opened Application

  datatype Page = Page(
    isMenuOpen: bool,
    listenerAttached: bool,
    draftSettings: ArticleState,
    articleSettings: ArticleState)

  /**
   * The events the panel reacts to. `RunEffect` is React running the effect on
   * `isMenuOpen` after a render (cleanup of the previous run, then a new run);
   * `MouseDown` is a document mousedown, with the DOM `contains` test given as
   * whether the panel ref is set and whether the target lies inside it.
   */
  datatype Event =
    | ToggleSidebar
    | RunEffect
    | MouseDown(panelMounted: bool, targetInsidePanel: bool)
    | Change(slot: Slot, option: OptionType)
    | ApplySubmit
    | ResetClick
    | Unmount

  /** Both components just mounted: panel closed, no listener, draft seeded from the applied state. */
  function Mounted(applied: ArticleState): (p: Page)
    ensures !p.isMenuOpen && !p.listenerAttached
    ensures p.draftSettings == applied && p.articleSettings == applied
  {
    Page(false, false, applied, applied)
  }

  /** One event. `defaults` is the catalogue's default configuration. */
  function Step(defaults: ArticleState, p: Page, e: Event): (q: Page)
    ensures !Commits(e) ==> q.articleSettings == p.articleSettings
    ensures e.ApplySubmit? ==> q.articleSettings == p.draftSettings
    ensures e.ResetClick? ==> q.articleSettings == defaults && q.draftSettings == defaults
    ensures !e.Change? && !e.ResetClick? ==> q.draftSettings == p.draftSettings
    ensures q.isMenuOpen && !p.isMenuOpen ==> e.ToggleSidebar?
    ensures !e.RunEffect? && !e.Unmount? ==> q.listenerAttached == p.listenerAttached
  {
    match e
    case ToggleSidebar => p.(isMenuOpen := !p.isMenuOpen)
    case RunEffect => p.(listenerAttached := p.isMenuOpen)
    case MouseDown(panelMounted, targetInsidePanel) =>
      if p.listenerAttached && panelMounted && !targetInsidePanel then p.(isMenuOpen := false) else p
    case Change(slot, option) => p.(draftSettings := With(p.draftSettings, slot, option))
    case ApplySubmit => p.(articleSettings := p.draftSettings)
    case ResetClick => p.(draftSettings := defaults, articleSettings := defaults)
    case Unmount => p.(listenerAttached := false)
  }

  /** A sequence of events, first to last. */
  function Run(defaults: ArticleState, p: Page, es: seq<Event>): (q: Page)
    decreases |es|
  {
    if es == [] then p else Run(defaults, Step(defaults, p, es[0]), es[1..])
  }

  /** Events that hand a configuration to the host. */
  predicate Commits(e: Event)
  {
    e.ApplySubmit? || e.ResetClick?
  }

  /** Events that only concern the panel's visibility and its listener. */
  predicate PanelOnly(e: Event)
  {
    e.ToggleSidebar? || e.RunEffect? || e.MouseDown? || e.Unmount?
  }

  /** A mousedown the listener would act on: the panel ref is set and the target is outside it. */
  predicate Outside(e: Event)
    requires e.MouseDown?
  {
    e.panelMounted && !e.targetInsidePanel
  }

  // ---------------------------------------------------------------------------
  // One event at a time

  /** Toggling flips the open flag and touches nothing else; toggling twice is the identity. */
  lemma ToggleFlips(d: ArticleState, p: Page)
    ensures Step(d, p, ToggleSidebar).isMenuOpen == !p.isMenuOpen
    ensures Step(d, p, ToggleSidebar).(isMenuOpen := p.isMenuOpen) == p
    ensures Step(d, Step(d, p, ToggleSidebar), ToggleSidebar) == p
  {
  }

  /** After the effect has run, the listener is registered exactly when the panel is open. */
  lemma EffectSyncsListener(d: ArticleState, p: Page)
    ensures Step(d, p, RunEffect).listenerAttached <==> p.isMenuOpen
    ensures Step(d, p, RunEffect).(listenerAttached := p.listenerAttached) == p
    ensures Step(d, Step(d, p, RunEffect), RunEffect) == Step(d, p, RunEffect)
  {
  }

  /**
   * The outside-click rule: a mousedown closes the panel exactly when the listener is
   * registered, the panel ref is set and the target is outside; it never opens the
   * panel and changes nothing else.
   */
  lemma MouseDownRule(d: ArticleState, p: Page, panelMounted: bool, targetInsidePanel: bool)
    ensures var q := Step(d, p, MouseDown(panelMounted, targetInsidePanel));
      q.isMenuOpen <==> p.isMenuOpen && !(p.listenerAttached && panelMounted && !targetInsidePanel)
    ensures var q := Step(d, p, MouseDown(panelMounted, targetInsidePanel));
      q.(isMenuOpen := p.isMenuOpen) == p
  {
  }

  /** A slot edit changes the draft in that slot only, and leaves the panel and the host alone. */
  lemma ChangeEditsOneSlot(d: ArticleState, p: Page, slot: Slot, o: OptionType)
    ensures var q := Step(d, p, Change(slot, o));
      Get(q.draftSettings, slot) == o &&
      (forall other :: other != slot ==> Get(q.draftSettings, other) == Get(p.draftSettings, other)) &&
      q.isMenuOpen == p.isMenuOpen && q.listenerAttached == p.listenerAttached &&
      q.articleSettings == p.articleSettings
    ensures Step(d, p, Change(slot, Get(p.draftSettings, slot))) == p
  {
  }

  /** Submitting hands over exactly the draft, keeps the draft and the open flag, and the page shows it. */
  lemma SubmitAppliesDraft(d: ArticleState, p: Page)
    ensures var q := Step(d, p, ApplySubmit);
      q.articleSettings == p.draftSettings && q.draftSettings == p.draftSettings &&
      q.isMenuOpen == p.isMenuOpen && q.listenerAttached == p.listenerAttached
    ensures StyleVars(Step(d, p, ApplySubmit).articleSettings) == StyleVars(p.draftSettings)
  {
  }

  /** Reset makes draft and applied state the default whatever they were, and keeps the open flag. */
  lemma ResetRestoresDefault(d: ArticleState, p: Page, p': Page)
    ensures var q := Step(d, p, ResetClick);
      q.draftSettings == d && q.articleSettings == d &&
      q.isMenuOpen == p.isMenuOpen && q.listenerAttached == p.listenerAttached
    ensures p.isMenuOpen == p'.isMenuOpen && p.listenerAttached == p'.listenerAttached ==>
      Step(d, p, ResetClick) == Step(d, p', ResetClick)
  {
  }

  // ---------------------------------------------------------------------------
  // Sequences of events

  lemma {:induction false} RunAppend(d: ArticleState, p: Page, a: seq<Event>, b: seq<Event>)
    ensures Run(d, p, a + b) == Run(d, Run(d, p, a), b)
    decreases |a|
  {
    if a != [] {
      assert (a + b)[0] == a[0];
      assert (a + b)[1..] == a[1..] + b;
      RunAppend(d, Step(d, p, a[0]), a[1..], b);
    } else {
      assert a + b == b;
    }
  }

  /**
   * Draft isolation: no sequence of events without a submit or a reset changes the
   * applied configuration, nor therefore the page's style variables.
   */
  lemma {:induction false} DraftIsolation(d: ArticleState, p: Page, es: seq<Event>)
    requires forall i :: 0 <= i < |es| ==> !Commits(es[i])
    ensures Run(d, p, es).articleSettings == p.articleSettings
    ensures StyleVars(Run(d, p, es).articleSettings) == StyleVars(p.articleSettings)
    decreases |es|
  {
    if es != [] {
      DraftIsolation(d, Step(d, p, es[0]), es[1..]);
    }
  }

  /**
   * Opening, closing, dismissing and the listener never touch either configuration:
   * unsaved edits in the draft survive closing the panel and opening it again.
   */
  lemma {:induction false} PanelEventsKeepDraft(d: ArticleState, p: Page, es: seq<Event>)
    requires forall i :: 0 <= i < |es| ==> PanelOnly(es[i])
    ensures Run(d, p, es).draftSettings == p.draftSettings
    ensures Run(d, p, es).articleSettings == p.articleSettings
    decreases |es|
  {
    if es != [] {
      PanelEventsKeepDraft(d, Step(d, p, es[0]), es[1..]);
    }
  }

  /** Only the toggle opens the panel. */
  lemma {:induction false} OnlyToggleOpens(d: ArticleState, p: Page, es: seq<Event>)
    requires forall i :: 0 <= i < |es| ==> !es[i].ToggleSidebar?
    ensures Run(d, p, es).isMenuOpen ==> p.isMenuOpen
    decreases |es|
  {
    if es != [] {
      OnlyToggleOpens(d, Step(d, p, es[0]), es[1..]);
    }
  }

  /**
   * A burst of mousedowns with no render in between: the panel stays open exactly
   * when it was open and either no listener was registered or every mousedown was
   * inside the panel or found the ref unset. With no listener they change nothing.
   */
  lemma {:induction false} MouseDowns(d: ArticleState, p: Page, es: seq<Event>)
    requires forall i :: 0 <= i < |es| ==> es[i].MouseDown?
    ensures Run(d, p, es).isMenuOpen <==>
      p.isMenuOpen && (!p.listenerAttached || forall i :: 0 <= i < |es| ==> !Outside(es[i]))
    ensures Run(d, p, es).(isMenuOpen := p.isMenuOpen) == p
    ensures !p.listenerAttached ==> Run(d, p, es) == p
    decreases |es|
  {
    if es != [] {
      var q := Step(d, p, es[0]);
      MouseDowns(d, q, es[1..]);
      if forall i :: 0 <= i < |es| ==> !Outside(es[i]) {
        assert !Outside(es[0]);
      } else {
        var i :| 0 <= i < |es| && Outside(es[i]);
        if i > 0 { assert Outside(es[1..][i - 1]); }
      }
    }
  }

  /** Whatever happened before, a reset leaves draft and applied state at the default. */
  lemma ResetForgetsHistory(d: ArticleState, p: Page, es: seq<Event>)
    ensures Run(d, p, es + [ResetClick]).draftSettings == d
    ensures Run(d, p, es + [ResetClick]).articleSettings == d
    ensures Run(d, p, es + [ResetClick]).isMenuOpen == Run(d, p, es).isMenuOpen
  {
    RunAppend(d, p, es, [ResetClick]);
  }

  /**
   * From mount: open the panel, pick a new font size, dismiss the panel by clicking
   * outside it, open it again. The host still shows the old configuration and the
   * reopened panel still shows the picked size: the draft is not re-seeded.
   */
  lemma EditSurvivesReopen(d: ArticleState, size: OptionType)
    ensures var p := Run(d, Mounted(d), [ToggleSidebar, RunEffect, Change(FontSize, size),
                                         MouseDown(true, false), RunEffect, ToggleSidebar, RunEffect]);
      p.isMenuOpen && p.listenerAttached &&
      p.draftSettings == With(d, FontSize, size) && p.draftSettings.fontSizeOption == size &&
      p.articleSettings == d
  {
    var p0 := Mounted(d);
    var p3 := Page(true, true, With(d, FontSize, size), d);
    var tail := [MouseDown(true, false), RunEffect, ToggleSidebar, RunEffect];
    calc {
      Run(d, p0, [ToggleSidebar, RunEffect, Change(FontSize, size)] + tail);
      { RunAppend(d, p0, [ToggleSidebar, RunEffect, Change(FontSize, size)], tail); }
      Run(d, Run(d, p0, [ToggleSidebar, RunEffect, Change(FontSize, size)]), tail);
      { assert Run(d, Step(d, Step(d, p0, ToggleSidebar), RunEffect), [Change(FontSize, size)]) == p3; }
      Run(d, p3, tail);
    }
    assert [ToggleSidebar, RunEffect, Change(FontSize, size)] + tail
        == [ToggleSidebar, RunEffect, Change(FontSize, size), MouseDown(true, false), RunEffect, ToggleSidebar, RunEffect];
    PanelEventsKeepDraft(d, p3, tail);
    assert Run(d, p3, tail) == Run(d, Page(false, true, p3.draftSettings, d), tail[1..]);
    assert Run(d, p3, tail).isMenuOpen && Run(d, p3, tail).listenerAttached;
  }

  // ---------------------------------------------------------------------------
  // The component

  class ArticleParamsForm {
    var isMenuOpen: bool
    var listenerAttached: bool
    var draftSettings: ArticleState
    /** The host whose `HandleApplySettings` is the `onApplySettings` prop. */
    const onApplySettings: App
    /** `defaultArticleState` from the option catalogue. */
    const defaultArticleState: ArticleState

    /** The combined state of the panel and its host. */
    ghost function Snapshot(): Page
      reads this, onApplySettings
    {
      Page(isMenuOpen, listenerAttached, draftSettings, onApplySettings.articleSettings)
    }

    /** Mounting: closed, no listener, draft seeded once from the host's applied configuration. */
    constructor(host: App, defaults: ArticleState)
      ensures onApplySettings == host && defaultArticleState == defaults
      ensures Snapshot() == Page(false, false, host.articleSettings, host.articleSettings)
    {
      onApplySettings := host;
      defaultArticleState := defaults;
      isMenuOpen := false;
      listenerAttached := false;
      draftSettings := host.articleSettings;
    }

    method ToggleSidebar()
      modifies this
      ensures isMenuOpen == !old(isMenuOpen)
      ensures Snapshot() == Step(defaultArticleState, old(Snapshot()), Event.ToggleSidebar)
    {
      isMenuOpen := !isMenuOpen;
    }

    /** The effect on `isMenuOpen`: remove the previous run's listener, then register one if open. */
    method SyncEffect()
      modifies this
      ensures listenerAttached == isMenuOpen
      ensures Snapshot() == Step(defaultArticleState, old(Snapshot()), RunEffect)
    {
      if listenerAttached {
        listenerAttached := false;
      }
      if isMenuOpen {
        listenerAttached := true;
      }
    }

    /** A document mousedown: reaches the handler only while the listener is registered. */
    method HandleDocumentMouseDown(panelMounted: bool, targetInsidePanel: bool)
      modifies this
      ensures Snapshot() == Step(defaultArticleState, old(Snapshot()), MouseDown(panelMounted, targetInsidePanel))
    {
      if listenerAttached {
        if panelMounted && !targetInsidePanel {
          isMenuOpen := false;
        }
      }
    }

    method HandleFontChange(option: OptionType)
      modifies this
      ensures draftSettings == old(draftSettings).(fontFamilyOption := option)
      ensures Snapshot() == Step(defaultArticleState, old(Snapshot()), Change(FontFamily, option))
    {
      draftSettings := draftSettings.(fontFamilyOption := option);
    }

    method HandleFontSizeChange(option: OptionType)
      modifies this
      ensures draftSettings == old(draftSettings).(fontSizeOption := option)
      ensures Snapshot() == Step(defaultArticleState, old(Snapshot()), Change(FontSize, option))
    {
      draftSettings := draftSettings.(fontSizeOption := option);
    }

    method HandleFontColorChange(option: OptionType)
      modifies this
      ensures draftSettings == old(draftSettings).(fontColor := option)
      ensures Snapshot() == Step(defaultArticleState, old(Snapshot()), Change(FontColor, option))
    {
      draftSettings := draftSettings.(fontColor := option);
    }

    method HandleBackgroundColorChange(option: OptionType)
      modifies this
      ensures draftSettings == old(draftSettings).(backgroundColor := option)
      ensures Snapshot() == Step(defaultArticleState, old(Snapshot()), Change(BackgroundColor, option))
    {
      draftSettings := draftSettings.(backgroundColor := option);
    }

    method HandleContentWidthChange(option: OptionType)
      modifies this
      ensures draftSettings == old(draftSettings).(contentWidth := option)
      ensures Snapshot() == Step(defaultArticleState, old(Snapshot()), Change(ContentWidth, option))
    {
      draftSettings := draftSettings.(contentWidth := option);
    }

    /** Submit: hands the current draft to the host. */
    method HandleApplySubmit()
      modifies onApplySettings
      ensures onApplySettings.articleSettings == draftSettings
      ensures Snapshot() == Step(defaultArticleState, old(Snapshot()), ApplySubmit)
    {
      onApplySettings.HandleApplySettings(draftSettings);
    }

    /** Reset: the draft and the host's applied configuration both become the default. */
    method HandleResetClick()
      modifies this, onApplySettings
      ensures draftSettings == defaultArticleState && onApplySettings.articleSettings == defaultArticleState
      ensures Snapshot() == Step(defaultArticleState, old(Snapshot()), ResetClick)
    {
      draftSettings := defaultArticleState;
      onApplySettings.HandleApplySettings(defaultArticleState);
    }

    /** Teardown runs the effect's cleanup, so no listener outlives the panel. */
    method Unmount()
      modifies this
      ensures !listenerAttached
      ensures Snapshot() == Step(defaultArticleState, old(Snapshot()), Event.Unmount)
    {
      listenerAttached := false;
    }
  }

  /** The host renders with the default configuration and mounts the panel with it. */
  method Mount(defaultArticleState: ArticleState) returns (app: App, form: ArticleParamsForm)
    ensures fresh(app) && fresh(form) && form.onApplySettings == app
    ensures form.defaultArticleState == defaultArticleState
    ensures form.Snapshot() == Mounted(defaultArticleState)
  {
    app := new App(defaultArticleState);
    form := new ArticleParamsForm(app, defaultArticleState);
  }
}
