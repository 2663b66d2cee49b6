/** The toolbar controller: what the script does when the page loads, and
    what each control does when it is used.

    Every formatting action goes through modifyText, which hands a
    (command, defaultUi, value) triple to the browser's rich-text engine.
    The engine's effect is not modelled; the log of triples stands for it.
 */
module Toolbar {
  import opened Highlight
  import opened Link

  /** One entry of a dropdown: its value and its visible caption. */
  datatype OptionElement = OptionElement(value: string, caption: string)

  /** The third argument of modifyText: null for simple buttons. */
  datatype Arg = Null | Text(text: string)

  /** One call of modifyText, in the order of its parameters. */
  datatype ExecCall = ExecCall(command: string, defaultUi: bool, value: Arg)

  /** The four highlighted button groups, by their class in the markup. */
  datatype GroupName = Align | Spacing | Format | Script

  /** The highlighting mode intializer gives each group: alignment, spacing
      and script groups are exclusive, the format group is independent. */
  function NeedsRemoval(g: GroupName): (r: bool)
    ensures !r <==> g == Format
  {
    match g
    case Align => true
    case Spacing => true
    case Format => false
    case Script => true
  }

  const FontList: seq<string> :=
    ["Arial", "Verdana", "Times New Roman", "Garamond", "Georgia", "Courier New", "Cursive"]

  /** The identifier of the link button, which is also its command. */
  const LinkButtonId: string := "createLink"

  /** A number from 0 to 9 as a one-digit decimal string. */
  function Numeral(n: nat): string
    requires n <= 9
  {
    [(n + '0' as int) as char]
  }

  /** The numeric value of a one-digit decimal string. */
  function DigitValue(s: string): int
    requires |s| == 1
  {
    s[0] as int - '0' as int
  }

  /** The font-name entries, one per font, value equal to caption. */
  function FontOptions(): seq<OptionElement> {
    seq(|FontList|, k requires 0 <= k < |FontList| => OptionElement(FontList[k], FontList[k]))
  }

  /** The font-size entries 1 to 7, value equal to caption. */
  function SizeOptions(): seq<OptionElement> {
    seq(7, k requires 0 <= k < 7 => OptionElement(Numeral(k + 1), Numeral(k + 1)))
  }

  /** The index a select element selects when its value is set to v: the
      first entry with that value, or -1 when there is none. */
  function FindOption(options: seq<OptionElement>, v: string): (r: int)
    ensures -1 <= r < |options|
    ensures 0 <= r ==> options[r].value == v
    ensures forall k :: 0 <= k < |options| && (r < 0 || k < r) ==> options[k].value != v
  {
    if options == [] then -1
    else if options[0].value == v then 0
    else
      var rest := FindOption(options[1..], v);
      if rest < 0 then -1 else rest + 1
  }

  /** The value a select element reports for a selected index. */
  function SelectedValue(options: seq<OptionElement>, index: int): string {
    if 0 <= index < |options| then options[index].value else ""
  }

  /** The font dropdown gets the seven fonts in the listed order, each with
      value equal to caption. */
  lemma FontOptionsListed()
    ensures |FontOptions()| == 7
    ensures forall k :: 0 <= k < 7 ==>
              FontOptions()[k].value == FontList[k] && FontOptions()[k].caption == FontList[k]
    ensures FontOptions()[0].value == "Arial" && FontOptions()[6].value == "Cursive"
  {
  }

  /** The size dropdown gets 1 to 7 in strictly ascending order, each with
      value equal to caption. */
  lemma SizeOptionsAscending()
    ensures |SizeOptions()| == 7
    ensures forall k :: 0 <= k < 7 ==>
              SizeOptions()[k].value == SizeOptions()[k].caption
              && |SizeOptions()[k].value| == 1 && DigitValue(SizeOptions()[k].value) == k + 1
    ensures forall j, k :: 0 <= j < k < 7 ==>
              DigitValue(SizeOptions()[j].value) < DigitValue(SizeOptions()[k].value)
  {
  }

  /** Setting the size dropdown to 3 selects its third entry, whose value
      is "3". */
  lemma DefaultSizeSelected()
    ensures FindOption(SizeOptions(), Numeral(3)) == 2
    ensures SelectedValue(SizeOptions(), 2) == "3"
  {
    var r := FindOption(SizeOptions(), Numeral(3));
    assert SizeOptions()[2].value == Numeral(3);
    assert r <= 2;
  }

  class Editor {
    const align: ButtonGroup
    const spacing: ButtonGroup
    const format: ButtonGroup
    const script: ButtonGroup
    /** Entries of the font-name dropdown. */
    var fontOptions: seq<OptionElement>
    /** Entries of the font-size dropdown. */
    var sizeOptions: seq<OptionElement>
    /** Selected index of the font-size dropdown, -1 for none. */
    var sizeIndex: int
    /** Calls of modifyText, oldest first. */
    var log: seq<ExecCall>

    function Group(g: GroupName): ButtonGroup {
      match g
      case Align => align
      case Spacing => spacing
      case Format => format
      case Script => script
    }

    /** The four groups are apart on the page and each has the mode that
        intializer gives it. */
    predicate Valid() {
      (forall g :: Group(g).exclusive == NeedsRemoval(g))
      && (forall g, h :: g != h ==> Group(g).buttons != Group(h).buttons)
    }

    /** The value the font-size dropdown reports. */
    function SizeValue(): string
      reads this
    {
      SelectedValue(sizeOptions, sizeIndex)
    }

    /** Loading the script: each group starts with the markers the markup
        gives it and gets its highlighting mode, both dropdowns (empty in
        the markup) are filled, and the size dropdown is set to 3. */
    constructor (alignInit: seq<bool>, spacingInit: seq<bool>, formatInit: seq<bool>, scriptInit: seq<bool>)
      ensures Valid()
      ensures fresh(align.buttons) && fresh(spacing.buttons)
      ensures fresh(format.buttons) && fresh(script.buttons)
      ensures align.buttons[..] == alignInit && spacing.buttons[..] == spacingInit
      ensures format.buttons[..] == formatInit && script.buttons[..] == scriptInit
      ensures fontOptions == FontOptions() && sizeOptions == SizeOptions()
      ensures sizeIndex == 2 && SizeValue() == "3"
      ensures log == []
    {
      align := new ButtonGroup(alignInit, NeedsRemoval(Align));
      spacing := new ButtonGroup(spacingInit, NeedsRemoval(Spacing));
      format := new ButtonGroup(formatInit, NeedsRemoval(Format));
      script := new ButtonGroup(scriptInit, NeedsRemoval(Script));
      fontOptions, sizeOptions, sizeIndex, log := [], [], -1, [];
      new;
      AddFontOptions();
      AddSizeOptions();
      sizeIndex := FindOption(sizeOptions, Numeral(3));
      DefaultSizeSelected();
    }

    /** Append one entry per font, value and caption the font's name. */
    method AddFontOptions()
      modifies this`fontOptions
      ensures fontOptions == old(fontOptions) + FontOptions()
    {
      for k := 0 to |FontList|
        invariant fontOptions == old(fontOptions) + FontOptions()[..k]
      {
        fontOptions := fontOptions + [OptionElement(FontList[k], FontList[k])];
        assert FontOptions()[..k + 1] == FontOptions()[..k] + [FontOptions()[k]];
      }
      assert FontOptions()[..|FontList|] == FontOptions();
    }

    /** Append the sizes 1 to 7, value and caption the number. */
    method AddSizeOptions()
      modifies this`sizeOptions
      ensures sizeOptions == old(sizeOptions) + SizeOptions()
    {
      for i := 1 to 8
        invariant sizeOptions == old(sizeOptions) + SizeOptions()[..i - 1]
      {
        sizeOptions := sizeOptions + [OptionElement(Numeral(i), Numeral(i))];
        assert SizeOptions()[..i] == SizeOptions()[..i - 1] + [SizeOptions()[i - 1]];
      }
      assert SizeOptions()[..7] == SizeOptions();
    }

    /** modifyText: forward one triple to the rich-text engine. */
    method ModifyText(command: string, defaultUi: bool, value: Arg)
      modifies this`log
      ensures log == old(log) + [ExecCall(command, defaultUi, value)]
    {
      log := log + [ExecCall(command, defaultUi, value)];
    }

    /** Click on a simple option button: its identifier is the command and
        there is no value. */
    method ClickOption(id: string)
      modifies this`log
      ensures log == old(log) + [ExecCall(id, false, Null)]
    {
      ModifyText(id, false, Null);
    }

    /** Change of a value control (colour, font name, font size): its
        identifier is the command and its current value the argument. */
    method ChangeAdvancedOption(id: string, currentValue: string)
      modifies this`log
      ensures log == old(log) + [ExecCall(id, false, Text(currentValue))]
    {
      ModifyText(id, false, Text(currentValue));
    }

    /** Click on the link button, given what the URL prompt returned. */
    method ClickLink(reply: PromptReply)
      modifies this`log
      ensures log == old(log) + [ExecCall(LinkButtonId, false, Text(NormalizeLink(reply)))]
      ensures ContainsHttp(log[|log| - 1].value.text)
    {
      var userLink := ReplyText(reply);
      if ContainsHttp(userLink) {
        ModifyText(LinkButtonId, false, Text(userLink));
      } else {
        userLink := Scheme + userLink;
        ModifyText(LinkButtonId, false, Text(userLink));
      }
    }

    /** Click on button i of a highlighted group: the group's listener runs
        and no other group changes. */
    method ClickHighlighted(g: GroupName, i: nat)
      requires Valid()
      requires i < Group(g).buttons.Length
      modifies Group(g).buttons
      ensures Group(g).buttons[..] == GroupClick(NeedsRemoval(g), old(Group(g).buttons[..]), i)
      ensures forall h :: h != g ==> Group(h).buttons[..] == old(Group(h).buttons[..])
      ensures g != Align ==> align.buttons[..] == old(align.buttons[..])
      ensures g != Spacing ==> spacing.buttons[..] == old(spacing.buttons[..])
      ensures g != Format ==> format.buttons[..] == old(format.buttons[..])
      ensures g != Script ==> script.buttons[..] == old(script.buttons[..])
    {
      assert Group(Align) == align && Group(Spacing) == spacing;
      assert Group(Format) == format && Group(Script) == script;
      Group(g).Click(i);
    }
  }
}
