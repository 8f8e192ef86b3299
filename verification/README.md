# Article settings panel: a Dafny model

This project models the state machine behind the blog customizer's settings panel.
The panel is a slide-out form (`ArticleParamsForm`). The page host (`App`) owns the
applied article configuration and projects it into CSS variables.

- `article_props.dfy` (module `ArticleProps`) holds the shape of one catalogue option.
  It also holds the five-slot configuration record `ArticleState`, and `With`, the
  copy-on-write slot update `{ ...prev, slot: option }`.
- `application.dfy` (module `Application`) models `App.tsx`. The pure function
  `StyleVars` is the five-variable `style` projection. The class `App` holds the
  applied configuration (`articleSettings`), and `HandleApplySettings` replaces it
  wholesale.
- `params_form.dfy` (module `ParamsForm`) models `ArticleParamsForm.tsx`.
  - A `Page` value is a snapshot of the open flag, the mousedown-listener
    registration, the draft and the host's applied configuration.
  - `Step` gives the effect of one event on a snapshot, and `Run` gives the effect
    of a sequence of events. The lemmas about them state the panel's rules.
  - The class `ArticleParamsForm` keeps the same state in fields and has one method
    per handler. Each method is proved to perform exactly one `Step` on
    `Snapshot()`. `onApplySettings` is the host object, whose
    `HandleApplySettings` the submit and reset handlers call.

The default configuration `defaultArticleState` and the option catalogues come from
`src/constants/articleProps`, which is not part of this model. Their contents are
never assumed. The default is a parameter (`defaults`, `d`, `defaultArticleState`)
of every member that uses it.

The React effect on `isMenuOpen` is the event `RunEffect` (method `SyncEffect`).
It removes the listener registered by the previous run, if there is one. It then
registers a new listener if the panel is open, so afterwards
`listenerAttached == isMenuOpen`. Unmounting runs the same cleanup (`Unmount`). A
document mousedown reaches the handler only while a listener is registered. The
DOM test `panelRef.current && !panelRef.current.contains(target)` is split into two
boolean inputs: `panelMounted` and `targetInsidePanel`.

The draft is seeded from the applied configuration once, when the panel mounts
(`useState(articleSettings)`). Closing and reopening the panel does not re-seed it,
and a change of the applied configuration does not re-sync it.
`PanelEventsKeepDraft` and `EditSurvivesReopen` state this: unsaved edits survive
closing and reopening the panel.

## Model

| member | source | states |
|---|---|---|
| `ArticleProps.With` | src/components/article-params-form/ArticleParamsForm.tsx:57-81 | the updated record holds the new option in the edited slot, and every other slot keeps its previous option |
| `ArticleProps.SlotwiseEquality` | src/components/article-params-form/ArticleParamsForm.tsx:57-81 | two configurations are equal if and only if they agree in all five slots |
| `ArticleProps.WithSameIsIdentity` | src/components/article-params-form/ArticleParamsForm.tsx:57-81 | setting a slot to the option it already holds gives back the same configuration |
| `ArticleProps.WithCommutes` | src/components/article-params-form/ArticleParamsForm.tsx:57-81 | edits of two different slots commute, so editing one slot never resets another |
| `ArticleProps.WithOverwrites` | src/components/article-params-form/ArticleParamsForm.tsx:57-81 | a second edit of the same slot replaces the first one entirely |
| `Application.VarName` | src/components/App.tsx:25-29 | each slot's CSS variable is one of the five published variables |
| `Application.StyleVars` | src/components/App.tsx:24-30 | the projection's keys are exactly the five variables, and each variable carries its slot's `value` (`--font-family`, `--font-size`, `--font-color`, `--container-width`, `--bg-color`) |
| `Application.VarNamesDistinct` | src/components/App.tsx:24-30 | different slots get different variables, so the projection has exactly five keys |
| `Application.StyleKeysAreSlots` | src/components/App.tsx:24-30 | every key of the projection belongs to some slot |
| `Application.StyleVarsEqualIff` | src/components/App.tsx:24-30 | two configurations give the same style map if and only if their slots carry the same values; equal configurations give equal maps |
| `Application.StyleVarsAfterWith` | src/components/App.tsx:24-30 | editing one slot changes the style map only at that slot's variable, which becomes the new option's value |
| `Application.App.constructor` | src/components/App.tsx:13-14 | the applied configuration starts as the default |
| `Application.App.HandleApplySettings` | src/components/App.tsx:16-18 | the applied configuration becomes exactly the given one: a replacement, not a merge |
| `Application.App.Style` | src/components/App.tsx:23-31 | the rendered style is the projection of the applied configuration, not of any draft |
| `ParamsForm.Mounted` | src/components/article-params-form/ArticleParamsForm.tsx:29-31 | at mount the panel is closed, no listener is registered, and the draft equals the applied configuration |
| `ParamsForm.Step` | src/components/article-params-form/ArticleParamsForm.tsx:34-91 | one event's effect on the panel and the host: only submit and reset change the applied configuration, submit applies exactly the draft and reset the default, only slot edits and reset change the draft, only the toggle can open the panel, and the listener changes only on an effect run or unmount |
| `ParamsForm.ToggleFlips` | src/components/article-params-form/ArticleParamsForm.tsx:34-36 | toggling flips the open flag and leaves the listener, the draft and the applied configuration alone; toggling twice is the identity |
| `ParamsForm.EffectSyncsListener` | src/components/article-params-form/ArticleParamsForm.tsx:38-55 | after the effect runs, the listener is registered if and only if the panel is open; the effect changes nothing else, and running it twice is the same as running it once |
| `ParamsForm.MouseDownRule` | src/components/article-params-form/ArticleParamsForm.tsx:41-48 | a mousedown leaves the panel open if and only if it was open and not (listener registered, panel ref set and target outside); it changes nothing else |
| `ParamsForm.ChangeEditsOneSlot` | src/components/article-params-form/ArticleParamsForm.tsx:57-81 | a slot edit changes only that slot of the draft, never the applied configuration or the panel; re-selecting the current option changes nothing |
| `ParamsForm.SubmitAppliesDraft` | src/components/article-params-form/ArticleParamsForm.tsx:83-86 | submit makes the applied configuration exactly the draft and keeps the draft and the open flag; the style map becomes the draft's projection |
| `ParamsForm.ResetRestoresDefault` | src/components/article-params-form/ArticleParamsForm.tsx:88-91 | reset makes both the draft and the applied configuration the default, keeps the open flag, and does not depend on the previous draft or applied configuration |
| `ParamsForm.DraftIsolation` | src/components/article-params-form/ArticleParamsForm.tsx:57-91 | any sequence of events without a submit or a reset leaves the applied configuration and the style map unchanged |
| `ParamsForm.PanelEventsKeepDraft` | src/components/article-params-form/ArticleParamsForm.tsx:29-55 | toggling, effect runs, mousedowns and unmounting never change the draft or the applied configuration |
| `ParamsForm.OnlyToggleOpens` | src/components/article-params-form/ArticleParamsForm.tsx:34-48 | without a toggle, no sequence of events opens a closed panel |
| `ParamsForm.MouseDowns` | src/components/article-params-form/ArticleParamsForm.tsx:38-55 | after a burst of mousedowns the panel is open if and only if it was open and either no listener was registered or no mousedown was an outside click with the ref set; with no listener they change nothing |
| `ParamsForm.ResetForgetsHistory` | src/components/article-params-form/ArticleParamsForm.tsx:88-91 | whatever events came before, a final reset leaves the draft and the applied configuration at the default and the open flag as it was |
| `ParamsForm.EditSurvivesReopen` | src/components/article-params-form/ArticleParamsForm.tsx:29-55 | open, edit the font size, dismiss by clicking outside, reopen: the draft still holds the edit and the applied configuration is still the default |
| `ParamsForm.ArticleParamsForm.constructor` | src/components/article-params-form/ArticleParamsForm.tsx:25-32 | the panel mounts closed, with no listener, and with the draft seeded from the host's applied configuration |
| `ParamsForm.ArticleParamsForm.ToggleSidebar` | src/components/article-params-form/ArticleParamsForm.tsx:34-36 | flips `isMenuOpen`; the new state is one `ToggleSidebar` step of the old one |
| `ParamsForm.ArticleParamsForm.SyncEffect` | src/components/article-params-form/ArticleParamsForm.tsx:38-55 | removes the previous listener and registers one only if open, so afterwards `listenerAttached == isMenuOpen` |
| `ParamsForm.ArticleParamsForm.HandleDocumentMouseDown` | src/components/article-params-form/ArticleParamsForm.tsx:41-48 | performs one `MouseDown` step: it closes the panel only through a registered listener, with the panel ref set and the target outside the panel |
| `ParamsForm.ArticleParamsForm.HandleFontChange` | src/components/article-params-form/ArticleParamsForm.tsx:57-59 | the draft's `fontFamilyOption` becomes the option; all else is unchanged |
| `ParamsForm.ArticleParamsForm.HandleFontSizeChange` | src/components/article-params-form/ArticleParamsForm.tsx:61-65 | the draft's `fontSizeOption` becomes the option; all else is unchanged |
| `ParamsForm.ArticleParamsForm.HandleFontColorChange` | src/components/article-params-form/ArticleParamsForm.tsx:67-69 | the draft's `fontColor` becomes the option; all else is unchanged |
| `ParamsForm.ArticleParamsForm.HandleBackgroundColorChange` | src/components/article-params-form/ArticleParamsForm.tsx:71-75 | the draft's `backgroundColor` becomes the option; all else is unchanged |
| `ParamsForm.ArticleParamsForm.HandleContentWidthChange` | src/components/article-params-form/ArticleParamsForm.tsx:77-81 | the draft's `contentWidth` becomes the option; all else is unchanged |
| `ParamsForm.ArticleParamsForm.HandleApplySubmit` | src/components/article-params-form/ArticleParamsForm.tsx:83-86 | the host's applied configuration becomes the current draft; the draft, the open flag and the listener are unchanged |
| `ParamsForm.ArticleParamsForm.HandleResetClick` | src/components/article-params-form/ArticleParamsForm.tsx:88-91 | the draft and the host's applied configuration both become `defaultArticleState`; the open flag and the listener are unchanged |
| `ParamsForm.ArticleParamsForm.Unmount` | src/components/article-params-form/ArticleParamsForm.tsx:52-54 | teardown runs the effect's cleanup, so no listener remains; nothing else changes |
| `ParamsForm.Mount` | src/components/App.tsx:13-35 | the page starts with the default applied and mounts the panel wired to the host, in the `Mounted` state |

## Left out

- JSX rendering is not modelled: the CSS module class names, the open/closed class on the `aside`, the headings and the field layout. They are presentation only.
- The UI primitives `ArrowButton`, `Button`, `Select`, `RadioGroup`, `Text` and `Separator`, and the `Article` component, are not part of this model. Each control's `onChange` is taken to call its handler with an option of the right slot.
- The contents of the option catalogues and of `defaultArticleState` (`src/constants/articleProps`) are not part of this model. The default is a parameter, and no catalogue values are invented. The model therefore does not check that a chosen option belongs to its catalogue; the source's handlers do not check it either.
- `event.preventDefault()` in the submit handler and DOM `Node.contains` are browser calls. The first is omitted. The second becomes the boolean inputs `panelMounted` and `targetInsidePanel`.
- React scheduling is not modelled: batching, re-render timing, and when the effect runs after a state change. Callers of the model choose where `RunEffect` falls in an event sequence. The interleaving of the arrow button's click with the document mousedown is not modelled either; the button sits outside the panel ref, and that ordering belongs to the browser's event loop.
- Teardown is treated as the last event. The model has no "unmounted" flag, so it does not rule out events after `Unmount`; the source's component receives none once it is torn down.
