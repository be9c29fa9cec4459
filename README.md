# todo-tui core, modelled in Dafny

This project models the core of the terminal todo application
`literallyNotFate/todo-tui` and proves properties of that model. The core
covers:

- the greedy word wrap used to lay out popup messages;
- the popup record, its builders, its title texts and its sizing arithmetic;
- the help popup;
- the single-line input box and the yes/no confirmation dialog;
- the three overlay slots of the user interface;
- the todo items and the in-memory list with its selection;
- the application's key router and initial state;
- what the renderer draws: the list placeholder, the dimmed backdrop strips
  around an open popup, and the popup.

The model has one module per source file:

| module | file | form |
|---|---|---|
| `TextUtils` | `text.dfy` | `WrapText` is a method with the program's nested loops. It is proved equal to the function `Wrap`, and the properties of `wrap_text` are lemmas about `Wrap`. |
| `MathUtils` | `math.dfy` | functions |
| `PopupWidget` | `popup.dfy` | the `Popup` datatype; its builders are functional updates |
| `PopupLayout` | `popup_layout.dfy` | title texts as functions. `CalculateArea` is a method that updates width and height step by step, as `calculate_area` does, and is proved against the functions `PopupWidth` and `PopupHeight`. |
| `HelpPopupComponent` | `help_popup.dfy` | function and lemmas |
| `InputWidget` | `input.dfy` | class `InputBox`; `HandleKey` edits the buffer and the cursor in place |
| `ConfirmWidget` | `confirm.dfy` | class `Confirm`; `HandleKey` flips the highlight in place |
| `UserInterface` | `ui_state.dfy` | class `UIState` with three `Option` slots |
| `TodoModel` | `todo.dfy` | class `Todo` |
| `AppState` | `app_state.dfy` | class `ApplicationState` holding a sequence of `Todo` objects and an `Option<nat>` selection |
| `App` | `application.dfy` | class `Application` and its key router |
| `Rendering` | `renderer.dfy` | a `Frame` class that records the widgets drawn, in order; strip geometry as functions |

Two more modules hold shared types:

- `Wrappers` holds `Option`.
- `Terminal` holds the terminal library's key codes, modifiers, colours,
  padding and `u16` rectangles.

The integer widths follow the program:

- Rectangle coordinates and padding are `u16` in the program.
- Where the program adds them in 16 bits, a precondition states that the sum
  does not overflow. These preconditions are `PaddingFits` and `Rect.Bounded`.

### Behaviour worth knowing

- **Backspace.** Two Backspaces on `edit("Task 2")` leave `"Task"`, with the
  cursor at 4. This is proved in `InputWidget.EditTask2TwoBackspaces`.
- **Zero width.** `wrap_text` does not clamp a width of 0. At width 0 every
  word goes on a line of its own, after one leading empty line (see
  `TextUtils.WrapLineZeroWidth`).
- **Key routing.** `handle_key` looks only at the popup slot. Nothing routes
  keys to the input box or the confirm dialog, even when they are shown.
- **Selection after `append_todo`.** `append_todo` selects index `len`, one
  past the last todo (`AppState.AppendLeavesSelectionPastEnd`). A
  `rename_todo`, `remove_todo`, `toggle_current` or `get_current_todo`
  called right after it indexes past the end of the vector and panics. The
  model's versions of these four require the selection to be in range, so
  that state is exactly the one they exclude.
- **Backdrop off the origin.** The backdrop strips measure the popup's row
  and column from 0, not from the frame's edge. They are correct for a
  frame at the origin (`Rendering.StripsBounded`, `Rendering.StripsAvoidPopup`),
  but not for a frame that starts elsewhere (`Rendering.TopStripOffOrigin`).

### Inconsistencies inside the program

The model follows the code that is called in each case:

- **`Todo` is not `Clone`.** `get_current_todo` returns
  `self.todos[index].clone()`, but `Todo` derives only `Debug` and
  `Default`. The model returns the selected todo's value.
- **`ApplicationState::new`.** `Application::new` passes a vector of three
  todos to it, but state.rs defines it without arguments.
  - The model builds the three todos the call lists.
  - It keeps the selection `Some(0)` that `new` sets.
- **`Renderer::render`.** It is declared as `render(frame, app)` and reads
  `app.todos` and `app.ui`. `Application::render` calls it with the todos,
  the list state and the UI state instead.
  - The model's `Render` takes the UI state.
  - It draws the placeholder text that `render_todo_list` draws, whatever the
    todos are.

## Model

| member | source | states |
|---|---|---|
| TextUtils.WrapText | src/app/utils/text.rs:1-22 | The nested loops over input lines and their words return exactly `Wrap(input, maxWidth)`. For each input line, the words are packed greedily and each emitted group is joined with single spaces. |
| TextUtils.LinesOfJoinLines | src/app/utils/text.rs:4 | `str::lines` gives back the lines that were joined with "\n", provided none holds a line break or a final carriage return and the last is not empty. |
| TextUtils.WordsAreWords | src/app/utils/text.rs:6 | Every piece `split_whitespace` yields is non-empty and holds no whitespace. |
| TextUtils.WordsAppend | src/app/utils/text.rs:6 | Splitting a concatenation at a word boundary gives the words of each part, one list after the other. |
| TextUtils.TrimSpaced | src/app/utils/text.rs:8-17 | `current_line` (each word followed by a space) with its end trimmed is the words joined by single spaces. |
| TextUtils.JoinEnds | src/app/utils/text.rs:8-17 | A non-empty group of words, joined, neither starts nor ends with whitespace. |
| TextUtils.WordsOfJoin | src/app/utils/text.rs:8-17 | Words joined by single spaces split back into the same words. |
| TextUtils.PackKeepsWords | src/app/utils/text.rs:6-14 | Packing loses no word, duplicates none and reorders none: the groups concatenate to the open group followed by the remaining words. |
| TextUtils.PackOfWords | src/app/utils/text.rs:6-14 | Every emitted group consists of words. |
| TextUtils.PackShape | src/app/utils/text.rs:7-13 | Only the group open at the start can be empty, and only if it was. A group of two or more words fits the width, counting its trailing space. |
| TextUtils.PackFirstGroup | src/app/utils/text.rs:7-14 | The first group emitted begins with the group that was open. |
| TextUtils.PackZeroWidth | src/app/utils/text.rs:6-14 | With width 0, the open group is closed first and then every word forms a group of its own. |
| TextUtils.WrapAllAppend | src/app/utils/text.rs:4-19 | The output for several input lines is the outputs for each line, one after the other, so words of different input lines never share an output line. |
| TextUtils.BlankLineContributesNothing | src/app/utils/text.rs:5-18 | An input line adds output lines exactly when it holds a word. |
| TextUtils.WrapLineKeepsWords | src/app/utils/text.rs:5-18 | The words of the output lines of one input line are that line's words, in order. |
| TextUtils.WrapKeepsWords | src/app/utils/text.rs:4-19 | Token preservation: the words of all output lines, in order, are the words of all input lines, in order. |
| TextUtils.WordsOfLinesOfText | src/app/utils/text.rs:4-6 | Splitting a text into lines with `lines()` and each line with `split_whitespace` gives the words of the whole text: no word is lost or joined at a line break. |
| TextUtils.WrapTextKeepsWords | src/app/utils/text.rs:1-22 | The words of `wrap_text(input, w)`, in order, are the words of `input` (its `split_whitespace`), and so also the words of its lines. |
| TextUtils.WrapLineWellShaped | src/app/utils/text.rs:7-18 | Every output line of one input line is either empty or words joined by single spaces, without leading or trailing whitespace. A line of two or more words is shorter than the width. |
| TextUtils.WrapWellShaped | src/app/utils/text.rs:4-19 | Every line `wrap_text` emits is well shaped in that sense. |
| TextUtils.WrapLineEmptyLines | src/app/utils/text.rs:7-16 | An input line yields an empty output line only as its first output line. It does so exactly when its first word plus the pending space exceeds the width, and the next output line then starts with that word. |
| TextUtils.WrapEmptyLines | src/app/utils/text.rs:4-19 | Across the whole output, every empty line is followed by a line whose first word does not fit the width together with a space. |
| TextUtils.WrapLineZeroWidth | src/app/utils/text.rs:6-14 | With width 0, an input line with words yields one empty line and then each word on a line of its own. |
| MathUtils.MaxLen | src/app/utils/math.rs:6 | The maximum is at least every element's length and equals some element's length. |
| MathUtils.CalculateMaxLineLen | src/app/utils/math.rs:5-7 | The result is 1 for no lines. Otherwise it is the length of some line and at least the length of every line, so it is 0 when all lines are empty. |
| PopupWidget.ColorOfInjective | src/app/ui/widgets/popup_widget/utils.rs:46-53 | The four kinds map to four distinct border colours. |
| PopupWidget.Popup.New | src/app/ui/widgets/popup_widget/popup.rs:48-67 | The popup has kind Info, the message, no title and closes on Esc. It has the Info colour, padding 2/2/1/1, no maximum width and a shown title. |
| PopupWidget.Popup.Kind | src/app/ui/widgets/popup_widget/popup.rs:91-95 | Sets the kind and its colour; every other field is unchanged. |
| PopupWidget.Popup.Title | src/app/ui/widgets/popup_widget/popup.rs:97-100 | Sets the title to `Some(t)`; nothing else changes. |
| PopupWidget.Popup.NoTitle | src/app/ui/widgets/popup_widget/popup.rs:102-105 | Hides the title line and keeps the title; nothing else changes. |
| PopupWidget.Popup.CloseOnAnyKey | src/app/ui/widgets/popup_widget/popup.rs:107-110 | Sets the close behaviour to any key; nothing else changes. |
| PopupWidget.Popup.CloseOn | src/app/ui/widgets/popup_widget/popup.rs:112-115 | Sets the close behaviour to exactly `key`; nothing else changes. |
| PopupWidget.Popup.WithBorderColor | src/app/ui/widgets/popup_widget/popup.rs:117-120 | Changes the border colour and no other field. |
| PopupWidget.Popup.WithPadding | src/app/ui/widgets/popup_widget/popup.rs:122-125 | Changes the padding and no other field. |
| PopupWidget.Popup.WithMaxWidth | src/app/ui/widgets/popup_widget/popup.rs:127-130 | Changes the maximum width to `Some(w)` and no other field. |
| PopupLayout.TitleLines | src/app/ui/widgets/popup_widget/utils.rs:55-103 | The top line is empty exactly when the title is hidden. Otherwise it is " title " or the kind's default title. The bottom line is always " Press ", the key text, " to close this popup. ", so it is 29 columns wider than the key text. |
| PopupLayout.TopTitleWidth | src/app/ui/widgets/popup_widget/utils.rs:56-80 | A shown top line is 2 wider than a set title, or as wide as the default title. |
| PopupLayout.BaseWidth | src/app/ui/widgets/popup_widget/utils.rs:19-25 | The wrap width is at most both the longest raw message line and the allowed width, and equals one of them: their minimum. Unless the cap applies, every raw line fits in it. |
| PopupLayout.PopupWidth | src/app/ui/widgets/popup_widget/utils.rs:31-40 | The width is at most both the frame's width and the wanted width, and equals one of them: their minimum. Unless the frame limits it, it is at least each of these, plus the side padding: the wrap width plus 6, the close hint, and a shown title. |
| PopupLayout.PopupHeight | src/app/ui/widgets/popup_widget/utils.rs:26-41 | The height is at most both the frame's height and the wanted height, and equals one of them: their minimum. Unless the frame limits it, it is the number of wrapped lines plus 2 border rows plus the vertical padding. |
| PopupLayout.CalculateArea | src/app/ui/widgets/popup_widget/utils.rs:11-44 | The step-by-step computation centres a box of exactly `PopupWidth` by `PopupHeight` in the frame. |
| HelpPopupComponent.HelpPopup | src/app/ui/components/help_popup.rs:5-21 | The help popup has kind Help with the Help colour and the title "Controls", and closes on '?'. It shows its title, keeps the default padding and has no maximum width. |
| HelpPopupComponent.HelpLineShape | src/app/ui/components/help_popup.rs:6-15 | No control line holds a line break or ends in a carriage return, and none is empty. |
| HelpPopupComponent.HelpMessageLines | src/app/ui/components/help_popup.rs:6-17 | The message splits back into exactly the eight control lines. |
| InputWidget.InsertAt | src/app/ui/widgets/inputbox/input.rs:132 | The result is one character longer, holds `c` at `i`, and agrees with the text before and after. |
| InputWidget.RemoveAt | src/app/ui/widgets/inputbox/input.rs:109-119 | The result is one character shorter and is the text without its character at `i`. |
| InputWidget.RemoveUndoesInsert | src/app/ui/widgets/inputbox/input.rs:114-135 | Removing the character just inserted gives the text back. |
| InputWidget.InputBox.Insert | src/app/ui/widgets/inputbox/input.rs:31-44 | The box is empty, with the cursor at 0, in Insert mode, with no title, a 46-character limit and its colour and padding. |
| InputWidget.InputBox.Edit | src/app/ui/widgets/inputbox/input.rs:46-62 | The box holds the initial text with the cursor at its end, in Edit mode. |
| InputWidget.InputBox.HandleKey | src/app/ui/widgets/inputbox/input.rs:99-140 | The cursor stays within the text, and a buffer within the limit stays within it. Each listed key has its exact effect on the buffer, the cursor and the result. Enter submits only a non-empty text. Every other key changes nothing and continues. |
| InputWidget.InputBox.Title | src/app/ui/widgets/inputbox/input.rs:143-146 | Sets only the title. |
| InputWidget.InputBox.NoTitle | src/app/ui/widgets/inputbox/input.rs:148-151 | Hides only the title line. |
| InputWidget.InputBox.WithFgColor | src/app/ui/widgets/inputbox/input.rs:153-156 | Sets only the text colour. |
| InputWidget.InputBox.WithMaxChars | src/app/ui/widgets/inputbox/input.rs:158-161 | Sets only the length limit. |
| InputWidget.InputBox.WithPadding | src/app/ui/widgets/inputbox/input.rs:163-166 | Sets only the padding. |
| InputWidget.EditTask2TwoBackspaces | src/app/ui/widgets/inputbox/input.rs:46-119 | Editing "Task 2" and pressing Backspace twice leaves "Task" with the cursor at 4. |
| InputWidget.TypeThenBackspace | src/app/ui/widgets/inputbox/input.rs:114-135 | Typing a character into a text with room and then pressing Backspace restores the text and the cursor. |
| InputWidget.EnterSubmits | src/app/ui/widgets/inputbox/input.rs:101-105 | Enter submits a non-empty text and does not submit an empty one. |
| ConfirmWidget.SelectedAfterParity | src/app/ui/widgets/confirm_widget/confirm.rs:71-74 | After any key presses, the highlight has flipped once per toggle key. |
| ConfirmWidget.TogglePresses | src/app/ui/widgets/confirm_widget/confirm.rs:71-74 | From a new dialog, an odd number of toggle presses highlights "Yes" and an even number "Cancel". |
| ConfirmWidget.SelectedAfterAppend | src/app/ui/widgets/confirm_widget/confirm.rs:69-79 | Feeding keys one at a time agrees with the highlight after the whole sequence. |
| ConfirmWidget.Confirm.constructor | src/app/ui/widgets/confirm_widget/confirm.rs:19-25 | There is no message, "Cancel" is highlighted and there is no action. |
| ConfirmWidget.Confirm.HandleKey | src/app/ui/widgets/confirm_widget/confirm.rs:69-79 | A toggle key flips the highlight and decides nothing. Enter decides the highlight, Esc decides "no", and other keys do nothing. Only the highlight can change. |
| ConfirmWidget.Confirm.WithMessage | src/app/ui/widgets/confirm_widget/confirm.rs:82-85 | Sets only the message. |
| ConfirmWidget.Confirm.Action | src/app/ui/widgets/confirm_widget/confirm.rs:87-90 | Sets only the action, to `Some(a)`. |
| UserInterface.UIState.constructor | src/app/ui/state.rs:5-10 | All three slots are empty. |
| UserInterface.UIState.ShowPopup | src/app/ui/state.rs:14-16 | The popup slot holds the new popup, whatever it held before; the other slots are unchanged. |
| UserInterface.UIState.ClosePopup | src/app/ui/state.rs:18-20 | The popup slot is empty; the other slots are unchanged. |
| UserInterface.UIState.ShowInput | src/app/ui/state.rs:23-25 | The input slot holds the box; the other slots are unchanged. |
| UserInterface.UIState.CloseInput | src/app/ui/state.rs:27-29 | The input slot is empty; the other slots are unchanged. |
| UserInterface.UIState.ShowConfirm | src/app/ui/state.rs:32-34 | The dialog slot holds the dialog; the other slots are unchanged. |
| UserInterface.UIState.CloseConfirm | src/app/ui/state.rs:36-38 | The dialog slot is empty; the other slots are unchanged. |
| UserInterface.ClosePopupKeepsInput | src/app/ui/state.rs:14-38 | Closing the popup twice leaves it closed and leaves a shown input box in place. Closing an empty slot leaves it empty. |
| TodoModel.Todo.constructor | src/app/models/todo.rs:8-13 | The todo has the title and is not done. |
| TodoModel.Todo.ToggleDone | src/app/models/todo.rs:15-17 | Negates the done flag and keeps the title. |
| TodoModel.Todo.Rename | src/app/models/todo.rs:19-21 | Sets the title and keeps the done flag. |
| TodoModel.ToggleTwice | src/app/models/todo.rs:29-46 | A new todo is done after one toggle and not done after two, with its title unchanged. |
| TodoModel.RenameNew | src/app/models/todo.rs:49-55 | A renamed new todo has the new title and is still not done. |
| AppState.ApplicationState.constructor | src/app/state.rs:11-16 | The list is empty and the first row is selected. |
| AppState.ApplicationState.AppendTodo | src/app/state.rs:18-21 | The items gain a new, not-done item with the title at the end, held by a fresh todo; the old todos are kept. The selection becomes one past the last index. |
| AppState.ApplicationState.RenameTodo | src/app/state.rs:23-27 | Exactly the selected item gets the new title and keeps its done flag. With no selection nothing changes. |
| AppState.ApplicationState.RemoveTodo | src/app/state.rs:29-33 | The selected todo is removed and the rest keep their order; the selection is unchanged. With no selection nothing changes. |
| AppState.ApplicationState.GetCurrentTodo | src/app/state.rs:35-38 | Returns the value of the selected todo, or of the first one when nothing is selected. |
| AppState.ApplicationState.ToggleCurrent | src/app/state.rs:40-44 | Flips the done flag of exactly the selected item. With no selection nothing changes. |
| AppState.AppendLeavesSelectionPastEnd | src/app/state.rs:11-21 | After appending titles to a new list, the items are the titles in order, none done. The selection is one past the end and does not index the list. |
| App.Application.constructor | src/app/application.rs:24-44 | The application is running with no overlay. It holds three fresh todos, "Task 1" done, "Task 2" and "Task 3" not done, and the first row is selected. |
| App.Application.HandleKey | src/app/application.rs:46-82 | Ctrl+C stops the application and changes nothing else, even over a popup. Otherwise an open popup takes every key: it closes exactly when its close behaviour matches, and running, the selection and the items are unchanged. With no popup, the list commands apply. The todos are never replaced, and the input and dialog slots never change. |
| App.Application.HandlePopupKey | src/app/application.rs:52-64 | The popup closes on any key with `AnyKey`, exactly on its key with `Specific(k)`, and never with `None`. The other slots are unchanged. |
| App.Application.HandleListKey | src/app/application.rs:66-81 | 'q' and Esc stop the application and '?' opens the help popup. Enter flips the selected item when the selection indexes the list; otherwise the items are unchanged. Only the move keys can change the selection, and other keys change nothing. |
| App.Application.MoveSelection | src/app/application.rs:68-69 | A move key changes nothing but the selection. |
| App.Application.ToggleSelected | src/app/application.rs:70-76 | Enter flips exactly the selected item when the selection is in range, as `get_mut` does, and changes nothing otherwise. |
| App.QuestionMarkOpensHelp | src/app/application.rs:52-79 | '?' opens the help popup. While it is open, 'q' neither quits nor closes it. |
| App.QuestionMarkClosesHelp | src/app/application.rs:57-79 | A second '?' closes the help popup, and then Esc quits. |
| App.InterruptOverPopup | src/app/application.rs:47-50 | Ctrl+C stops the application while the help popup is open and leaves the popup shown. |
| App.EnterTogglesFirstTask | src/app/application.rs:24-76 | Enter on the starting screen marks "Task 1" not done and leaves the other two alone. |
| Rendering.TopStrip | src/app/ui/renderer.rs:33-36 | There is a top strip exactly when the popup's y is positive. It spans the frame's width above the popup. |
| Rendering.BottomStrip | src/app/ui/renderer.rs:38-42 | There is a bottom strip exactly when the popup ends above the frame's height. It spans the frame's width from there down. |
| Rendering.LeftStrip | src/app/ui/renderer.rs:44-47 | There is a left strip exactly when the popup's x is positive. It covers the popup's rows, left of the popup. |
| Rendering.RightStrip | src/app/ui/renderer.rs:49-59 | There is a right strip exactly when the popup ends left of the frame's width. It covers the popup's rows from there to the frame's width. |
| Rendering.StripFacts | src/app/ui/renderer.rs:33-59 | A rectangle is drawn as a strip exactly when it is one of the four emitted strips. |
| Rendering.StripsAvoidPopup | src/app/ui/renderer.rs:24-60 | For a popup inside a frame at the origin, every strip lies inside the frame and shares no cell with the popup. |
| Rendering.StripsBounded | src/app/ui/renderer.rs:24-60 | For a frame at the origin, every strip's far edges fit in 16 bits. |
| Rendering.TopStripOffOrigin | src/app/ui/renderer.rs:33-36 | For a frame starting at row 30000, the top strip's height is the popup's row, so the strip overruns the frame and 16 bits. |
| Rendering.StripsNonEmpty | src/app/ui/renderer.rs:24-60 | Around a popup with at least one cell, every strip has positive width and height. |
| Rendering.StripsDisjoint | src/app/ui/renderer.rs:24-60 | The strips drawn are pairwise disjoint, so no cell is dimmed twice. |
| Rendering.StripsCoverBackground | src/app/ui/renderer.rs:24-60 | Every frame cell outside the popup is covered by some strip. |
| Rendering.RenderStrip | src/app/ui/renderer.rs:35-58 | A strip is drawn as a backdrop when it exists, and nothing is drawn otherwise. |
| Rendering.RenderOverlayExcept | src/app/ui/renderer.rs:24-60 | Draws exactly the existing strips as backdrops, in the order top, bottom, left, right. |
| Rendering.DrawPopup | src/app/ui/renderer.rs:19-20 | Draws the backdrop strips and then the popup itself. |
| Rendering.SceneOrder | src/app/ui/renderer.rs:14-22 | The list is drawn first. With a popup, up to four backdrops follow and the popup is drawn last. Without a popup, nothing follows. |
| Rendering.Render | src/app/ui/renderer.rs:14-22 | The list is always drawn. With no popup nothing else is drawn. With a popup, the area is centred from `PopupWidth` and `PopupHeight` and lies inside the frame, and the backdrop and then the popup are drawn, in that order. |

## Left out

- `percentage_of` (the 70% width bound) computes in floating point. The model takes its result as the parameter `maxAllowedWidth`.
- `center` delegates to the layout library's flex layout. It is the parameter `center`, never inspected.
  - `Rendering.Render` requires that `center` returns a rectangle within the rectangle it is given, as a centred sub-area is.
  - `Rect::new`'s clamping of oversized rectangles is not modelled. The popup area is `Rect.Bounded` (ensured by `Rendering.Render`). The backdrop strips are `Rect.Bounded` when the frame starts at the origin (`Rendering.StripsBounded`); for a frame elsewhere they can exceed 16 bits and the program's clamping is not modelled.
- `Line::width` is modelled as character count; text lengths everywhere are character counts.
  - `wrap_text` and `InputBox` index bytes. This agrees with the model for ASCII text only.
  - Unicode display widths are not modelled.
- The text of a key code, which `<k>` in the close hint uses, is the parameter `keyLabel`.
- All drawing is left out: the `render` methods of the popup, the input box and the dialog, styles and colours (except the kind-to-colour map), and the cursor position. The renderer is modelled only as the ordered list of widgets handed to the frame.
- `ListState::select_next` and `select_previous` belong to the terminal library. `App.Application.MoveSelection` lets the selection become any value and keeps everything else.
- `App.Application.HandleListKey`: does not say what `k`/`j`/Up/Down do to the selection, because the list widget decides that.
- `Application::run`, `mod.rs` and `main.rs` are left out: the event loop, terminal set-up and restore, and reading events.
- The older copies of the UI state, the popup and the widget helpers are left out. They conflict with the live definitions and depend on a module that is not part of this model.
- `ConfirmAction` is defined in a file that is not part of this model. It is an uninterpreted token.
- `Rendering.StripsNonEmpty`: requires a popup with at least one cell. Around an empty popup, the left and right strips have the popup's height, which can be 0.
- `PopupLayout.CalculateArea`: requires `PaddingFits`. The program adds the two paddings in 16 bits, which would overflow past 65535.
- 16-bit additions of rectangle coordinates in the renderer are assumed not to overflow (`Rect.Bounded`). The program would panic in a debug build and wrap in a release build.
