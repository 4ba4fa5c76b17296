/**
 * The FAQ chat widget (js/faq-chat.js): the question table, the category
 * table whose options point into it, and the state of the widget's panel
 * and accordion. The answers' HTML is left out; an answer is identified by
 * its question. Clicks are the methods; where a click lands is a parameter.
 */
module FaqChat {
  import opened Common

  /** An entry of `FAQ_DATA`: its question and its category key. */
  datatype FaqEntry = FaqEntry(question: string, category: string)

  /** An option of a category: the button's text and the question it opens. */
  datatype FaqOption = FaqOption(name: string, question: string)

  /** A category of `FAQ_CATEGORIES`, with its key. */
  datatype Category = Category(key: string, title: string, shortTitle: string, options: seq<FaqOption>)

  const FAQ_DATA: seq<FaqEntry> := [
    FaqEntry("I Want to Book a Consultation", "getting-started"),
    FaqEntry("Help Me Choose the Right Service", "getting-started"),
    FaqEntry("What's the Pricing and Session Details", "getting-started"),
    FaqEntry("What details do I need to give for a Vedic Astrology reading?", "getting-started"),
    FaqEntry("Who is this consultation suitable for?", "getting-started"),
    FaqEntry("What happens in a session?", "getting-started"),
    FaqEntry("How long is the session for?", "getting-started"),
    FaqEntry("I have a career issue", "life-situation"),
    FaqEntry("I have a relationships issue", "life-situation"),
    FaqEntry("I have a health issue", "life-situation"),
    FaqEntry("I have a finances issue", "life-situation"),
    FaqEntry("I have a family issue", "life-situation"),
    FaqEntry("I'm stuck despite effort", "life-situation"),
    FaqEntry("How is Vedic astrology different from Western astrology?", "understanding"),
    FaqEntry("What techniques do you use?", "understanding"),
    FaqEntry("Is this religious?", "understanding"),
    FaqEntry("Are the remedies given religious?", "understanding"),
    FaqEntry("How many sessions would I have to take to resolve my issue?", "understanding"),
    FaqEntry("What can I expect after the first session?", "practical"),
    FaqEntry("What information do I need before booking?", "practical"),
    FaqEntry("What if my birth time is unknown?", "practical"),
    FaqEntry("How often should I consult?", "practical"),
    FaqEntry("Browse All FAQs", "more-help"),
    FaqEntry("Contact Us Directly", "more-help")
  ]

  /** `FAQ_CATEGORIES`, in the order `Object.keys` lists it. */
  const FAQ_CATEGORIES: seq<Category> := [
    Category("getting-started", "Getting Started", "Getting Started", [
      FaqOption("Book Consultation", "I Want to Book a Consultation"),
      FaqOption("Choose Service", "Help Me Choose the Right Service"),
      FaqOption("Pricing", "What's the Pricing and Session Details"),
      FaqOption("Birth Details", "What details do I need to give for a Vedic Astrology reading?"),
      FaqOption("Suitable For", "Who is this consultation suitable for?"),
      FaqOption("Session Format", "What happens in a session?"),
      FaqOption("Session Length", "How long is the session for?")]),
    Category("life-situation", "My Life Situation", "Life Situation", [
      FaqOption("Career", "I have a career issue"),
      FaqOption("Relationships", "I have a relationships issue"),
      FaqOption("Health", "I have a health issue"),
      FaqOption("Finances", "I have a finances issue"),
      FaqOption("Family", "I have a family issue"),
      FaqOption("Stuck", "I'm stuck despite effort")]),
    Category("understanding", "Understanding the Process", "Understanding", [
      FaqOption("Vedic vs Western", "How is Vedic astrology different from Western astrology?"),
      FaqOption("Techniques", "What techniques do you use?"),
      FaqOption("Religious?", "Is this religious?"),
      FaqOption("Remedies Religious?", "Are the remedies given religious?"),
      FaqOption("How Many Sessions", "How many sessions would I have to take to resolve my issue?")]),
    Category("practical", "Practical Concerns", "Practical", [
      FaqOption("After Session", "What can I expect after the first session?"),
      FaqOption("Before Booking", "What information do I need before booking?"),
      FaqOption("Unknown Birth Time", "What if my birth time is unknown?"),
      FaqOption("Frequency", "How often should I consult?")]),
    Category("more-help", "Still Have Questions?", "More Help", [
      FaqOption("Browse FAQs", "Browse All FAQs"),
      FaqOption("Contact", "Contact Us Directly")])
  ]

  /** `FAQ_DATA.find(f => f.question === question)`, from position `from` on. */
  function FindFaq(question: string, from: nat): (r: Option<FaqEntry>)
    requires from <= |FAQ_DATA|
    ensures r.Some? ==> r.value in FAQ_DATA[from..] && r.value.question == question
    ensures r.None? <==> forall i :: from <= i < |FAQ_DATA| ==> FAQ_DATA[i].question != question
    decreases |FAQ_DATA| - from
  {
    if from == |FAQ_DATA| then None
    else if FAQ_DATA[from].question == question then Some(FAQ_DATA[from])
    else FindFaq(question, from + 1)
  }

  /** Where the entries of category `c` start in `FAQ_DATA`: the table lists them category by category. */
  function Offset(c: nat): nat
    requires c < |FAQ_CATEGORIES|
  {
    [0, 7, 13, 18, 22][c]
  }

  /** No question occurs twice in `FAQ_DATA`. */
  lemma QuestionsDistinct()
    ensures forall i, j :: 0 <= i < j < |FAQ_DATA| ==> FAQ_DATA[i].question != FAQ_DATA[j].question
  {
    CategoryQuestionsDistinct0();
    CategoryQuestionsDistinct1();
    CategoryQuestionsDistinct2();
    CategoryQuestionsDistinct3();
  }

  /** The questions of one category's entries differ from those of every later entry. */
  lemma CategoryQuestionsDistinct0()
    ensures forall i, j :: 0 <= i < 7 && i < j < |FAQ_DATA| ==> FAQ_DATA[i].question != FAQ_DATA[j].question
  {
  }

  lemma CategoryQuestionsDistinct1()
    ensures forall i, j :: 7 <= i < 13 && i < j < |FAQ_DATA| ==> FAQ_DATA[i].question != FAQ_DATA[j].question
  {
  }

  lemma CategoryQuestionsDistinct2()
    ensures forall i, j :: 13 <= i < 18 && i < j < |FAQ_DATA| ==> FAQ_DATA[i].question != FAQ_DATA[j].question
  {
  }

  lemma CategoryQuestionsDistinct3()
    ensures forall i, j :: 18 <= i < j < |FAQ_DATA| ==> FAQ_DATA[i].question != FAQ_DATA[j].question
  {
  }

  /** The entry at `Offset(c) + o` carries option `o` of category `c`, and belongs to that category. */
  predicate OptionEntry(c: nat, o: nat)
    requires c < |FAQ_CATEGORIES| && o < |FAQ_CATEGORIES[c].options|
  {
    Offset(c) + o < |FAQ_DATA| &&
    FAQ_DATA[Offset(c) + o] == FaqEntry(FAQ_CATEGORIES[c].options[o].question, FAQ_CATEGORIES[c].key)
  }

  /**
   * Each option's question is the question of exactly one entry, the one at
   * `Offset(c) + o`, and that entry belongs to the option's category.
   */
  lemma OptionsMatchEntries()
    ensures forall c: nat, o: nat :: c < |FAQ_CATEGORIES| && o < |FAQ_CATEGORIES[c].options| ==>
              OptionEntry(c, o) && OnlyEntry(c, o)
  {
    forall c: nat, o: nat | c < |FAQ_CATEGORIES| && o < |FAQ_CATEGORIES[c].options|
      ensures OptionEntry(c, o) && OnlyEntry(c, o)
    {
      OptionEntryUnique(c, o);
    }
  }

  /** One option at a time: the table is checked entry by entry. */
  lemma OptionMatchesEntry(c: nat, o: nat)
    requires c < |FAQ_CATEGORIES| && o < |FAQ_CATEGORIES[c].options|
    ensures OptionEntry(c, o)
  {
    if c == 0 {
      if o == 0 { Entry0_0(); } else if o == 1 { Entry0_1(); } else if o == 2 { Entry0_2(); } else if o == 3 { Entry0_3(); } else if o == 4 { Entry0_4(); } else if o == 5 { Entry0_5(); } else if o == 6 { Entry0_6(); }
    } else if c == 1 {
      if o == 0 { Entry1_0(); } else if o == 1 { Entry1_1(); } else if o == 2 { Entry1_2(); } else if o == 3 { Entry1_3(); } else if o == 4 { Entry1_4(); } else if o == 5 { Entry1_5(); }
    } else if c == 2 {
      if o == 0 { Entry2_0(); } else if o == 1 { Entry2_1(); } else if o == 2 { Entry2_2(); } else if o == 3 { Entry2_3(); } else if o == 4 { Entry2_4(); }
    } else if c == 3 {
      if o == 0 { Entry3_0(); } else if o == 1 { Entry3_1(); } else if o == 2 { Entry3_2(); } else if o == 3 { Entry3_3(); }
    } else if c == 4 {
      if o == 0 { Entry4_0(); } else if o == 1 { Entry4_1(); }
    }
  }

  lemma Entry0_0() ensures OptionEntry(0, 0) { }
  lemma Entry0_1() ensures OptionEntry(0, 1) { }
  lemma Entry0_2() ensures OptionEntry(0, 2) { }
  lemma Entry0_3() ensures OptionEntry(0, 3) { }
  lemma Entry0_4() ensures OptionEntry(0, 4) { }
  lemma Entry0_5() ensures OptionEntry(0, 5) { }
  lemma Entry0_6() ensures OptionEntry(0, 6) { }
  lemma Entry1_0() ensures OptionEntry(1, 0) { }
  lemma Entry1_1() ensures OptionEntry(1, 1) { }
  lemma Entry1_2() ensures OptionEntry(1, 2) { }
  lemma Entry1_3() ensures OptionEntry(1, 3) { }
  lemma Entry1_4() ensures OptionEntry(1, 4) { }
  lemma Entry1_5() ensures OptionEntry(1, 5) { }
  lemma Entry2_0() ensures OptionEntry(2, 0) { }
  lemma Entry2_1() ensures OptionEntry(2, 1) { }
  lemma Entry2_2() ensures OptionEntry(2, 2) { }
  lemma Entry2_3() ensures OptionEntry(2, 3) { }
  lemma Entry2_4() ensures OptionEntry(2, 4) { }
  lemma Entry3_0() ensures OptionEntry(3, 0) { }
  lemma Entry3_1() ensures OptionEntry(3, 1) { }
  lemma Entry3_2() ensures OptionEntry(3, 2) { }
  lemma Entry3_3() ensures OptionEntry(3, 3) { }
  lemma Entry4_0() ensures OptionEntry(4, 0) { }
  lemma Entry4_1() ensures OptionEntry(4, 1) { }

  /** No entry other than the one at `Offset(c) + o` carries option `o`'s question. */
  predicate OnlyEntry(c: nat, o: nat)
    requires c < |FAQ_CATEGORIES| && o < |FAQ_CATEGORIES[c].options|
  {
    forall i :: 0 <= i < |FAQ_DATA| && FAQ_DATA[i].question == FAQ_CATEGORIES[c].options[o].question ==>
      i == Offset(c) + o
  }

  /** Option `o` of category `c` matches its entry, and no other. */
  lemma OptionEntryUnique(c: nat, o: nat)
    requires c < |FAQ_CATEGORIES| && o < |FAQ_CATEGORIES[c].options|
    ensures OptionEntry(c, o) && OnlyEntry(c, o)
  {
    QuestionsDistinct();
    OptionMatchesEntry(c, o);
    var k := Offset(c) + o;
    forall i | 0 <= i < |FAQ_DATA| && FAQ_DATA[i].question == FAQ_CATEGORIES[c].options[o].question
      ensures i == k
    {
      assert FAQ_DATA[k].question == FAQ_DATA[i].question;
    }
  }

  /** Every entry is reached by an option of its own category: no entry is unreachable from the menu. */
  lemma EveryEntryHasAnOption(i: nat)
    requires i < |FAQ_DATA|
    ensures exists c, o :: 0 <= c < |FAQ_CATEGORIES| && 0 <= o < |FAQ_CATEGORIES[c].options| &&
              FAQ_DATA[i] == FaqEntry(FAQ_CATEGORIES[c].options[o].question, FAQ_CATEGORIES[c].key)
  {
    var c := if i < 7 then 0 else if i < 13 then 1 else if i < 18 then 2 else if i < 22 then 3 else 4;
    var o := i - Offset(c);
    assert 0 <= o < |FAQ_CATEGORIES[c].options|;
    OptionMatchesEntry(c, o);
    assert FAQ_DATA[i] == FaqEntry(FAQ_CATEGORIES[c].options[o].question, FAQ_CATEGORIES[c].key);
  }

  /** Looking up an option's question finds the entry of its category. */
  lemma FindOption(c: nat, o: nat)
    requires c < |FAQ_CATEGORIES| && o < |FAQ_CATEGORIES[c].options|
    ensures FindFaq(FAQ_CATEGORIES[c].options[o].question, 0) ==
            Some(FaqEntry(FAQ_CATEGORIES[c].options[o].question, FAQ_CATEGORIES[c].key))
  {
    OptionEntryUnique(c, o);
    FindFirst(FAQ_CATEGORIES[c].options[o].question, 0, Offset(c) + o);
  }

  /** `find` returns the entry at the only position holding the question. */
  lemma {:induction false} FindFirst(q: string, from: nat, k: nat)
    requires from <= k < |FAQ_DATA| && FAQ_DATA[k].question == q
    requires forall i :: from <= i < k ==> FAQ_DATA[i].question != q
    ensures FindFaq(q, from) == Some(FAQ_DATA[k])
    decreases k - from
  {
    if from < k {
      FindFirst(q, from + 1, k);
    }
  }

  // ---------------------------------------------------------------------
  // The widget: panel, accordion and answer containers.

  /** A category's shared answer container: its `active` class and its `data-question` ("" when unset). */
  datatype AnswerBox = AnswerBox(active: bool, question: string)

  const CLOSED := AnswerBox(false, "")

  /** No two category items are open at once. */
  predicate AtMostOneOpen(items: seq<bool>) {
    forall i, j :: 0 <= i < j < |items| && items[i] ==> !items[j]
  }

  /**
   * What a click on the header of item `c` leaves: every other item closed,
   * and `c` flipped.
   */
  function HeaderClicked(items: seq<bool>, c: nat): (r: seq<bool>)
    requires c < |items|
    ensures |r| == |items| && AtMostOneOpen(r)
    ensures r[c] == !items[c]
    ensures forall i :: 0 <= i < |r| && i != c ==> !r[i]
  {
    seq(|items|, i requires 0 <= i < |items| => i == c && !items[c])
  }

  /** Clicking the same header twice leaves at most that item open, as it was before the first click. */
  lemma HeaderClickTwice(items: seq<bool>, c: nat)
    requires c < |items|
    ensures forall i :: 0 <= i < |items| ==> HeaderClicked(HeaderClicked(items, c), c)[i] == (i == c && items[c])
    ensures AtMostOneOpen(items) && (items[c] || forall i :: 0 <= i < |items| ==> !items[i]) ==>
              HeaderClicked(HeaderClicked(items, c), c) == items
  {
    var twice := HeaderClicked(HeaderClicked(items, c), c);
    if AtMostOneOpen(items) && (items[c] || forall i :: 0 <= i < |items| ==> !items[i]) {
      forall i | 0 <= i < |items|
        ensures twice[i] == items[i]
      {
      }
    }
  }

  /** The answer container after a click on the option whose question is `q`. */
  function OptionClicked(box: AnswerBox, q: string): (r: AnswerBox)
    ensures box.active && box.question == q ==> r == CLOSED
    ensures !(box.active && box.question == q) && FindFaq(q, 0).Some? ==> r == AnswerBox(true, q)
    ensures !(box.active && box.question == q) && FindFaq(q, 0).None? ==> r == box
  {
    if box.active && box.question == q then CLOSED
    else if FindFaq(q, 0).Some? then AnswerBox(true, q)
    else box
  }

  /** Clicking an option shows its answer unless that answer is already showing, in which case it hides it. */
  lemma OptionClickToggles(c: nat, o: nat, box: AnswerBox)
    requires c < |FAQ_CATEGORIES| && o < |FAQ_CATEGORIES[c].options|
    ensures OptionClicked(box, FAQ_CATEGORIES[c].options[o].question).active <==>
            box != AnswerBox(true, FAQ_CATEGORIES[c].options[o].question)
    ensures OptionClicked(OptionClicked(box, FAQ_CATEGORIES[c].options[o].question),
                          FAQ_CATEGORIES[c].options[o].question) ==
            (if box == AnswerBox(true, FAQ_CATEGORIES[c].options[o].question) then box else CLOSED)
  {
    FindOption(c, o);
  }

  /** The container of category `c` is closed and unset, or shows one of that category's options. */
  predicate ShowsOwnOption(c: nat, box: AnswerBox)
    requires c < |FAQ_CATEGORIES|
  {
    (!box.active ==> box.question == "") &&
    (box.active ==> exists o :: 0 <= o < |FAQ_CATEGORIES[c].options| && box.question == FAQ_CATEGORIES[c].options[o].question)
  }

  /** A showing answer is the entry of the container's own category. */
  lemma ShownAnswerIsOwnCategory(c: nat, box: AnswerBox)
    requires c < |FAQ_CATEGORIES| && ShowsOwnOption(c, box) && box.active
    ensures FindFaq(box.question, 0) == Some(FaqEntry(box.question, FAQ_CATEGORIES[c].key))
  {
    var o :| 0 <= o < |FAQ_CATEGORIES[c].options| && box.question == FAQ_CATEGORIES[c].options[o].question;
    FindOption(c, o);
  }

  /**
   * The state `initFAQChat` keeps: `isOpen`, the `active` classes of the
   * panel and the button, and the rendered category items (none until the
   * panel is first opened; one per category afterwards).
   */
  class FaqWidget {
    var isOpen: bool
    var panelActive: bool
    var buttonActive: bool
    /** The `active` class of each category item. */
    var itemOpen: seq<bool>
    /** The answer container of each category item. */
    var answers: seq<AnswerBox>

    predicate Valid()
      reads this
    {
      panelActive == isOpen && buttonActive == isOpen &&
      |answers| == |itemOpen| &&
      (|itemOpen| == 0 || |itemOpen| == |FAQ_CATEGORIES|) &&
      (isOpen ==> |itemOpen| == |FAQ_CATEGORIES|) &&
      AtMostOneOpen(itemOpen) &&
      forall c :: 0 <= c < |answers| ==> ShowsOwnOption(c, answers[c])
    }

    /** The widget as the page sets it up: closed, with nothing rendered. */
    constructor()
      ensures Valid() && !isOpen && itemOpen == [] && answers == []
    {
      isOpen := false;
      panelActive := false;
      buttonActive := false;
      itemOpen := [];
      answers := [];
    }

    /** `renderCategories()`: clear the content and add one closed item per category. */
    method RenderCategories()
      modifies this
      ensures itemOpen == seq(|FAQ_CATEGORIES|, _ => false)
      ensures answers == seq(|FAQ_CATEGORIES|, _ => CLOSED)
      ensures isOpen == old(isOpen) && panelActive == old(panelActive) && buttonActive == old(buttonActive)
    {
      itemOpen := [];
      answers := [];
      var k := 0;
      while k < |FAQ_CATEGORIES|
        invariant 0 <= k <= |FAQ_CATEGORIES|
        invariant itemOpen == seq(k, _ => false) && answers == seq(k, _ => CLOSED)
        invariant isOpen == old(isOpen) && panelActive == old(panelActive) && buttonActive == old(buttonActive)
      {
        itemOpen := itemOpen + [false];
        answers := answers + [CLOSED];
        k := k + 1;
      }
    }

    /** `toggleChat()`: flip the panel; opening it renders the categories afresh. */
    method ToggleChat()
      requires Valid()
      modifies this
      ensures Valid()
      ensures isOpen == !old(isOpen)
      ensures isOpen ==> itemOpen == seq(|FAQ_CATEGORIES|, _ => false) && answers == seq(|FAQ_CATEGORIES|, _ => CLOSED)
      ensures !isOpen ==> itemOpen == old(itemOpen) && answers == old(answers)
    {
      isOpen := !isOpen;
      panelActive := isOpen;
      buttonActive := isOpen;
      if isOpen {
        RenderCategories();
      }
    }

    /** A click on the header of item `c`: close the other items, then flip this one. */
    method ClickHeader(c: nat)
      requires Valid() && c < |itemOpen|
      modifies this
      ensures Valid()
      ensures itemOpen == HeaderClicked(old(itemOpen), c)
      ensures answers == old(answers) && isOpen == old(isOpen)
    {
      var wasOpen := itemOpen[c];
      var i := 0;
      while i < |itemOpen|
        invariant 0 <= i <= |itemOpen| == |old(itemOpen)|
        invariant itemOpen[c] == wasOpen
        invariant forall j :: 0 <= j < i && j != c ==> !itemOpen[j]
        invariant forall j :: i <= j < |itemOpen| ==> itemOpen[j] == old(itemOpen)[j]
        invariant answers == old(answers) && isOpen == old(isOpen)
        invariant panelActive == old(panelActive) && buttonActive == old(buttonActive)
      {
        if i != c {
          itemOpen := itemOpen[i := false];
        }
        i := i + 1;
      }
      itemOpen := itemOpen[c := !wasOpen];
    }

    /** A click on option `o` of item `c`: hide its answer if it is showing, otherwise look it up and show it. */
    method ClickOption(c: nat, o: nat)
      requires Valid() && c < |answers| && o < |FAQ_CATEGORIES[c].options|
      modifies this
      ensures Valid()
      ensures answers == old(answers)[c := OptionClicked(old(answers)[c], FAQ_CATEGORIES[c].options[o].question)]
      ensures itemOpen == old(itemOpen) && isOpen == old(isOpen)
    {
      var q := FAQ_CATEGORIES[c].options[o].question;
      var box := answers[c];
      if box.active && box.question == q {
        answers := answers[c := CLOSED];
      } else {
        var faq := FindFaq(q, 0);
        if faq.Some? {
          answers := answers[c := AnswerBox(true, q)];
        }
      }
    }

    /** The document's click handler: a click outside the panel and the button closes an open panel. */
    method DocumentClick(insidePanel: bool, insideButton: bool)
      requires Valid()
      modifies this
      ensures Valid()
      ensures isOpen == (old(isOpen) && (insidePanel || insideButton))
      ensures itemOpen == old(itemOpen) && answers == old(answers)
    {
      if isOpen && !insidePanel && !insideButton {
        ToggleChat();
      }
    }

    /** A click on the chat button: its own handler toggles, and the document's handler then ignores it. */
    method ClickButton()
      requires Valid()
      modifies this
      ensures Valid()
      ensures isOpen == !old(isOpen)
      ensures isOpen ==> itemOpen == seq(|FAQ_CATEGORIES|, _ => false) && answers == seq(|FAQ_CATEGORIES|, _ => CLOSED)
      ensures !isOpen ==> itemOpen == old(itemOpen) && answers == old(answers)
    {
      ToggleChat();
      DocumentClick(false, true);
    }

    /**
     * A click on the close button, which may lie inside the panel or not:
     * its handler toggles, then the document's handler sees the click.
     */
    method ClickClose(insidePanel: bool)
      requires Valid()
      modifies this
      ensures Valid()
      ensures old(isOpen) ==> !isOpen && itemOpen == old(itemOpen) && answers == old(answers)
      ensures !old(isOpen) ==> (isOpen <==> insidePanel)
      ensures !old(isOpen) ==>
                itemOpen == seq(|FAQ_CATEGORIES|, _ => false) && answers == seq(|FAQ_CATEGORIES|, _ => CLOSED)
    {
      ToggleChat();
      DocumentClick(insidePanel, false);
    }
  }
}
