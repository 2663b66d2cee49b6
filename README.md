# Rich-text toolbar: a Dafny model

This is a model of the toolbar script of a small rich-text editor. The
script turns button clicks and dropdown changes into browser formatting
commands. It also keeps an "active" marker on the buttons of four groups:
alignment, spacing, format and script position.

The model has three modules.

- `Highlight` (highlight.dfy) models a button group as one flag per
  button. `ButtonGroup.Clear` stands for `highlighterRemover`.
  `ButtonGroup.Click` stands for the listener that `highlighter` installs.
  In an exclusive group a click records whether the button was active,
  clears the whole group, then marks the button again only if it was not
  active. In an independent group a click toggles the clicked button only.
  Both methods are proved against functions on sequences, and lemmas about
  those functions give the group's guarantees: an exclusive click leaves at
  most one button active, an independent click leaves every other button
  alone, and two independent clicks on one button undo each other.
- `Link` (link.dfy) models how the link button turns the prompt's reply
  into a URL. A reply that contains "http" in any letter case is used as
  it is. Any other reply gets "http://" in front of it. A cancelled prompt
  is turned into the string "null", so the link becomes "http://null".
- `Toolbar` (toolbar.dfy) models the page controller as the class `Editor`.
  Its constructor stands for loading the script. Each group gets its
  highlighting mode: alignment, spacing and script are exclusive, format is
  independent. The font dropdown is filled with the seven font names, and
  the size dropdown with 1 to 7. The size dropdown is then set to 3.
  Each control's event appends exactly one `(command, defaultUi, value)`
  triple to a log. The log stands for `document.execCommand`.

A cancelled prompt does not give an empty URL, as one might expect. The
code produces "http://null", because the page turns the missing reply into
the text "null". The model follows the code (`Link.NormalizeCancelled`).

## Model

| member | source | states |
|---|---|---|
| Highlight.Cleared | script.js:163-167 | removing every marker keeps the group's size and leaves no button active |
| Highlight.ExclusiveClick | script.js:143-151 | an exclusive click keeps the group's size, inverts the clicked button's flag, and leaves every other button inactive |
| Highlight.IndependentClick | script.js:152-154 | an independent click keeps the group's size, inverts the clicked button's flag, and leaves every other flag of the group as it was |
| Highlight.ButtonGroup.Clear | script.js:163-167 | every button of the group loses its marker; the group keeps its size |
| Highlight.ButtonGroup.Click | script.js:140-157 | an exclusive group becomes the cleared group with the clicked button marked exactly when it was unmarked before; an independent group has only the clicked flag inverted |
| Highlight.ExclusiveClickActivates | script.js:143-151 | an exclusive click on an inactive button leaves that button active, every other button inactive, and one active button in all |
| Highlight.ExclusiveClickDeactivates | script.js:144-150 | an exclusive click on an active button leaves no button of the group active |
| Highlight.ExclusiveClickAtMostOne | script.js:148-151 | whatever the flags before, an exclusive click leaves at most one active button: none if the clicked one was active, one otherwise |
| Highlight.ExclusiveRunAtMostOne | script.js:140-157 | after any non-empty sequence of clicks on an exclusive group, at most one button is active; the same holds for any sequence when the group started with at most one active |
| Highlight.AtMostOneIffCount | script.js:148-151 | "no two distinct buttons are active" holds exactly when the number of active buttons is at most one |
| Highlight.IndependentClickTwice | script.js:153 | two independent clicks on the same button restore the original flags |
| Highlight.IndependentRunParity | script.js:152-154 | after any click sequence on an independent group, a button's flag is its starting flag inverted once per click on that button, so clicks on other buttons never change it |
| Link.ReplyText | script.js:125-129 | a typed reply is taken as its text; a cancelled prompt (null) is taken as the text "null", which does not pass the "http" test |
| Link.ContainsHttpMatches | script.js:126 | the test /http/i, modelled by the left-to-right scan `ContainsHttp`, holds exactly when "http" occurs at some position with each letter in lower or upper case; without the unicode flag only the ASCII letters fold, so no other character matches |
| Link.NormalizeLink | script.js:126-130 | the dispatched link always passes the "http" test; it is the reply's text exactly when that text passes the test, and otherwise "http://" followed by the text |
| Link.NormalizeKeepsHttpReply | script.js:126-127 | a reply containing "http" in any letter case is dispatched unchanged |
| Link.NormalizePrefixesOtherReply | script.js:128-130 | any other reply is dispatched as "http://" followed by the reply |
| Link.NormalizeCancelled | script.js:125-130 | a cancelled prompt dispatches "http://null" |
| Link.NormalizeEndsWithReply | script.js:126-130 | the dispatched link ends with the reply's text, "null" for a cancelled prompt |
| Link.NormalizeIdempotent | script.js:126-130 | normalising an already normalised link leaves it unchanged |
| Link.NormalizeBareHost | script.js:128-130 | the reply "example.com" is dispatched as "http://example.com" |
| Link.NormalizeHttpUrls | script.js:126-127 | the replies "http://example.com" and "HTTPS://x.com" are dispatched unchanged |
| Link.NormalizeExamples | script.js:126-130 | "example.com" becomes "http://example.com"; "http://example.com" and "HTTPS://x.com" pass unchanged |
| Toolbar.NeedsRemoval | script.js:79-82 | the format group is the only independent group; the alignment, spacing and script groups are exclusive |
| Toolbar.FindOption | script.js:98 | setting a dropdown's value selects the first entry with that value, or no entry (-1) when none has it |
| Toolbar.FontOptionsListed | script.js:65-89 | the font entries are the seven fonts Arial, Verdana, Times New Roman, Garamond, Georgia, Courier New, Cursive in that order, each with value equal to caption |
| Toolbar.SizeOptionsAscending | script.js:91-96 | the size entries are 1 to 7 in strictly ascending order, each with value equal to caption |
| Toolbar.DefaultSizeSelected | script.js:98 | setting the filled size dropdown to 3 selects its third entry, whose value is "3" |
| Toolbar.Editor.constructor | script.js:78-99 | after loading, the four groups have their markup's flags and the modes exclusive, exclusive, independent, exclusive; the font and size dropdowns hold exactly the listed entries; the selected size is "3"; nothing has been dispatched |
| Toolbar.Editor.AddFontOptions | script.js:84-89 | the font dropdown gets the font entries appended, in list order |
| Toolbar.Editor.AddSizeOptions | script.js:91-96 | the size dropdown gets the entries 1 to 7 appended, in ascending order |
| Toolbar.Editor.ModifyText | script.js:108-110 | exactly one triple (command, defaultUi, value) is appended to the dispatch log |
| Toolbar.Editor.ClickOption | script.js:112-116 | a simple button click dispatches once, with the button's identifier as command, defaultUi false and a null value |
| Toolbar.Editor.ChangeAdvancedOption | script.js:118-122 | a value-control change dispatches once, with the control's identifier as command, defaultUi false and the control's current value |
| Toolbar.Editor.ClickLink | script.js:124-132 | a link click dispatches once, command "createLink", defaultUi false, the normalised link as value, and that value contains "http" |
| Toolbar.Editor.ClickHighlighted | script.js:79-82 | a click on a button of a group runs that group's listener in the mode it was given, and the flags of each of the other three groups are unchanged |

## Left out

- `document.execCommand` (script.js:109) belongs to the browser's rich-text engine, and its effect on the document cannot be seen from the script. The model records each call in a log instead.
- `prompt` (script.js:125) is blocking browser UI. Its answer is a parameter: a typed string, or `Cancelled`.
- The element lookups and listener registration (script.js:5-59, 112-124, 141-142) are DOM plumbing. A group's buttons are given to the constructor as their starting flags. A control's identifier and current value are given as parameters to its event method.
- The markup itself is not part of this model. The font and size dropdowns are taken to be empty before loading. A button that belongs to a highlighted group and also carries a command has two independent listeners; each is modelled on its own.
- `intializer()` is called while the script is evaluated (script.js:169); that call is the `Editor` constructor. Only the assignment of its result (undefined) to `window.onload`, the page lifecycle and `innerHTML` rendering are left out. The dropdowns keep only their (value, caption) entries. The size dropdown keeps only its selected index.
- `writingArea` (script.js:29) is looked up but never used by the script.
- The user's choice in a dropdown after loading is not tracked. `ChangeAdvancedOption` takes the control's current value as a parameter and only logs it, so after a change the `Editor`'s `sizeIndex` and `SizeValue()` still describe the default selection "3", while the page's dropdown reports the new value.
