/**
 * The browser client's decisions: the checks of the form's submit handler,
 * the industry classifier, and the text of the failure alert.
 */
module App {
  import opened Strings

  // ----- The submit handler -----

  const FillBothFields := "Please fill in both fields"
  const NameTooShort := "Business name must be at least 2 characters"
  const DescriptionTooShort := "Please provide a more detailed business description (at least 10 characters)"

  /** The handler either starts the generation or shows an alert. */
  datatype Validation = Start | Alert(message: string)

  /** The three checks, in order, on the trimmed field values. */
  function Validate(name: string, description: string): (v: Validation)
    ensures v == Start <==> |name| >= 2 && |description| >= 10
    ensures v.Alert? ==> v.message in {FillBothFields, NameTooShort, DescriptionTooShort}
  {
    if name == "" || description == "" then Alert(FillBothFields)
    else if |name| < 2 then Alert(NameTooShort)
    else if |description| < 10 then Alert(DescriptionTooShort)
    else Start
  }

  /** An empty field is reported first, whatever the lengths. */
  lemma EmptinessFirst(name: string, description: string)
    requires name == "" || description == ""
    ensures Validate(name, description) == Alert(FillBothFields)
  {
  }

  /** The name's length is reported before the description's. */
  lemma NameBeforeDescription(name: string, description: string)
    requires name != "" && description != "" && |name| < 2
    ensures Validate(name, description) == Alert(NameTooShort)
  {
  }

  /** The description's length is reported only for a long enough name. */
  lemma DescriptionLast(name: string, description: string)
    requires |name| >= 2 && description != "" && |description| < 10
    ensures Validate(name, description) == Alert(DescriptionTooShort)
  {
  }

  /** The module-level `userData` record. */
  class UserData {
    var businessName: string
    var businessDescription: string
    var generatedHTML: string

    constructor ()
      ensures businessName == "" && businessDescription == "" && generatedHTML == ""
    {
      businessName, businessDescription, generatedHTML := "", "", "";
    }

    /** The submit handler: store the trimmed inputs, then check them.
      * `Start` stands for the call of startGeneration. */
    method Submit(nameInput: string, descriptionInput: string) returns (v: Validation)
      modifies this
      ensures businessName == Trim(nameInput) && businessDescription == Trim(descriptionInput)
      ensures generatedHTML == old(generatedHTML)
      ensures v == Validate(businessName, businessDescription)
      ensures v == Start <==> |Trim(nameInput)| >= 2 && |Trim(descriptionInput)| >= 10
    {
      businessName := Trim(nameInput);
      businessDescription := Trim(descriptionInput);
      if businessName == "" || businessDescription == "" {
        v := Alert(FillBothFields);
        return;
      }
      if |businessName| < 2 {
        v := Alert(NameTooShort);
        return;
      }
      if |businessDescription| < 10 {
        v := Alert(DescriptionTooShort);
        return;
      }
      v := Start;
    }
  }

  /** Padding round the inputs does not change the decision. */
  lemma ValidationIgnoresPadding(w1: string, name: string, w2: string, w3: string, description: string, w4: string)
    requires AllSpace(w1) && AllSpace(w2) && AllSpace(w3) && AllSpace(w4)
    requires IsTrimmed(name) && IsTrimmed(description)
    ensures Validate(Trim(w1 + name + w2), Trim(w3 + description + w4)) == Validate(name, description)
  {
    TrimPadded(w1, name, w2);
    TrimPadded(w3, description, w4);
  }

  // ----- getIndustryType -----

  datatype Industry = Restaurant | Salon | Fitness | Legal | Retail | Tech | Other {
    /** The string getIndustryType returns. */
    function Label(): (r: string)
      ensures r == "business" <==> this == Other
    {
      match this
      case Restaurant => "restaurant"
      case Salon => "salon"
      case Fitness => "fitness"
      case Legal => "legal"
      case Retail => "retail"
      case Tech => "tech"
      case Other => "business"
    }
  }

  /** Distinct industries have distinct labels. */
  lemma LabelsDistinct(a: Industry, b: Industry)
    ensures a.Label() == b.Label() ==> a == b
  {
  }

  const RestaurantWords := ["restaurant", "food", "pizza", "cafe", "diner"]
  const SalonWords := ["barber", "salon", "hair", "spa"]
  const FitnessWords := ["gym", "fitness", "trainer", "yoga"]
  const LegalWords := ["law", "legal", "attorney", "lawyer"]
  const RetailWords := ["shop", "store", "retail"]
  const TechWords := ["tech", "software", "app"]

  /** Some keyword of the list occurs in the text. */
  predicate Mentions(text: string, words: seq<string>) {
    exists i :: 0 <= i < |words| && Includes(text, words[i])
  }

  /** getIndustryType on the stored description: lower-case it, then take the
    * first category, in a fixed order, one of whose keywords occurs in it. */
  function Classify(description: string): (r: Industry)
    ensures Mentions(ToLower(description), RestaurantWords) ==> r == Restaurant
    ensures r != Other ==>
              exists k :: 0 <= k < |Categories| && Categories[k].0 == r && Mentions(ToLower(description), Categories[k].1)
  {
    var desc := ToLower(description);
    assert Categories[0] == (Restaurant, RestaurantWords) && Categories[1] == (Salon, SalonWords);
    assert Categories[2] == (Fitness, FitnessWords) && Categories[3] == (Legal, LegalWords);
    assert Categories[4] == (Retail, RetailWords) && Categories[5] == (Tech, TechWords);
    if Mentions(desc, RestaurantWords) then Restaurant
    else if Mentions(desc, SalonWords) then Salon
    else if Mentions(desc, FitnessWords) then Fitness
    else if Mentions(desc, LegalWords) then Legal
    else if Mentions(desc, RetailWords) then Retail
    else if Mentions(desc, TechWords) then Tech
    else Other
  }

  /** The categories in the order they are tried. */
  const Categories: seq<(Industry, seq<string>)> := [
    (Restaurant, RestaurantWords), (Salon, SalonWords), (Fitness, FitnessWords),
    (Legal, LegalWords), (Retail, RetailWords), (Tech, TechWords)]

  /** Reference definition: the first category of `table` with a keyword in
    * `text`, or Other. */
  function FirstMatch(text: string, table: seq<(Industry, seq<string>)>): Industry {
    if table == [] then Other
    else if Mentions(text, table[0].1) then table[0].0
    else FirstMatch(text, table[1..])
  }

  /** The classifier is the first-match search over the category table. */
  lemma ClassifyIsFirstMatch(description: string)
    ensures Classify(description) == FirstMatch(ToLower(description), Categories)
  {
    var d := ToLower(description);
    var t := Categories;
    assert t[6..] == [];
    FirstMatchStep(d, t, 5);
    FirstMatchStep(d, t, 4);
    FirstMatchStep(d, t, 3);
    FirstMatchStep(d, t, 2);
    FirstMatchStep(d, t, 1);
    FirstMatchStep(d, t, 0);
    assert t[0..] == t;
  }

  /** One step of the first-match search, on a suffix of the table. */
  lemma FirstMatchStep(text: string, table: seq<(Industry, seq<string>)>, k: nat)
    requires k < |table|
    ensures FirstMatch(text, table[k..])
              == if Mentions(text, table[k].1) then table[k].0 else FirstMatch(text, table[k + 1..])
  {
    assert table[k..][0] == table[k] && table[k..][1..] == table[k + 1..];
  }

  /** The position of the first category with a keyword in `text`, or the
    * length of the table when there is none. */
  lemma {:induction false} FirstMatchIndex(text: string, table: seq<(Industry, seq<string>)>) returns (i: nat)
    ensures i <= |table|
    ensures forall j :: 0 <= j < i ==> !Mentions(text, table[j].1)
    ensures i < |table| ==> Mentions(text, table[i].1) && FirstMatch(text, table) == table[i].0
    ensures i == |table| ==> FirstMatch(text, table) == Other
    decreases |table|
  {
    if table == [] {
      i := 0;
    } else if Mentions(text, table[0].1) {
      i := 0;
    } else {
      var i' := FirstMatchIndex(text, table[1..]);
      i := i' + 1;
      forall j | 0 <= j < i ensures !Mentions(text, table[j].1) {
        if j > 0 {
          assert table[j] == table[1..][j - 1];
        }
      }
      if i < |table| {
        assert table[i] == table[1..][i'];
      }
    }
  }

  /** Each industry other than the fallback labels exactly one category. */
  lemma CategoriesDistinct()
    ensures forall i, j :: 0 <= i < j < |Categories| ==> Categories[i].0 != Categories[j].0
    ensures forall i :: 0 <= i < |Categories| ==> Categories[i].0 != Other
  {
  }

  /** Matching ignores case: descriptions that agree once lower-cased are
    * classified alike, and lower-casing first changes nothing. */
  lemma ClassifyIgnoresCase(a: string, b: string)
    requires ToLower(a) == ToLower(b)
    ensures Classify(a) == Classify(b)
    ensures Classify(ToLower(a)) == Classify(a)
  {
    assert ToLower(ToLower(a)) == ToLower(a);
  }

  /** A category wins exactly when one of its keywords occurs and none of an
    * earlier category's does. */
  lemma ClassifyPrecedence(description: string, k: nat)
    requires k < |Categories|
    ensures Classify(description) == Categories[k].0 <==>
              Mentions(ToLower(description), Categories[k].1)
              && forall j :: 0 <= j < k ==> !Mentions(ToLower(description), Categories[j].1)
  {
    var d := ToLower(description);
    ClassifyIsFirstMatch(description);
    CategoriesDistinct();
    var i := FirstMatchIndex(d, Categories);
    if Mentions(d, Categories[k].1) && forall j :: 0 <= j < k ==> !Mentions(d, Categories[j].1) {
      assert i == k;
    }
  }

  /** The last fallback, 'business', is reached exactly when no keyword
    * occurs as a substring. */
  lemma ClassifyFallback(description: string)
    ensures Classify(description) == Other <==>
              forall j :: 0 <= j < |Categories| ==> !Mentions(ToLower(description), Categories[j].1)
  {
    var d := ToLower(description);
    ClassifyIsFirstMatch(description);
    CategoriesDistinct();
    var i := FirstMatchIndex(d, Categories);
  }

  /** A keyword counts wherever it occurs, inside a longer word too. */
  lemma KeywordInsideWord(description: string, k: nat, i: nat, word: string)
    requires k < |Categories| && word in Categories[k].1
    requires i + |word| <= |description| && ToLower(description)[i..i + |word|] == word
    ensures Mentions(ToLower(description), Categories[k].1)
  {
    var w :| 0 <= w < |Categories[k].1| && Categories[k].1[w] == word;
    IncludesAt(ToLower(description), word, i);
  }

  /** "Pizza and yoga" is a restaurant: the restaurant keywords are tried
    * before the fitness ones. */
  lemma PizzaBeforeYoga()
    ensures Classify("Pizza and yoga") == Restaurant
  {
    var d := ToLower("Pizza and yoga");
    assert d[0..5] == "pizza";
    IncludesAt(d, "pizza", 0);
    assert RestaurantWords[2] == "pizza";
  }

  /** "Seafood" contains "food", so a seafood stall is a restaurant. */
  lemma SubstringNotWord()
    ensures Classify("Seafood stall") == Restaurant
  {
    var d := ToLower("Seafood stall");
    assert d[3..7] == "food";
    IncludesAt(d, "food", 3);
    assert RestaurantWords[1] == "food";
  }

  // ----- showErrorAlert -----

  /** The part of the alert chosen from the error message. */
  datatype Hint = Configuration | Timeout | Network | Generic

  const KeyMissingText := "ANTHROPIC_API_KEY not set"
  const TimeoutText := "timeout"
  const TimedOutText := "timed out"
  const NetworkText := "Network error"

  /** The `if`/`else if` chain over the message, which is case-sensitive. */
  function SelectHint(message: string): (h: Hint)
    ensures h == Generic <==>
              !Includes(message, KeyMissingText) && !Includes(message, TimeoutText)
              && !Includes(message, TimedOutText) && !Includes(message, NetworkText)
  {
    if Includes(message, KeyMissingText) then Configuration
    else if Includes(message, TimeoutText) || Includes(message, TimedOutText) then Timeout
    else if Includes(message, NetworkText) then Network
    else Generic
  }

  const AlertHeader := "\U{274C} Generation Failed\n\n"

  function HintText(h: Hint): (r: string)
    ensures |r| > 0
    ensures r[0] == '\U{26A0}' <==> h == Configuration
    ensures h != Configuration ==> r[0] == '\U{1F4A1}'
  {
    match h
    case Configuration =>
      "\U{26A0}\U{FE0F} This is a server configuration issue.\n" + "Please contact ClientMint support."
    case Timeout =>
      "\U{1F4A1} Suggestion:\n" + "\U{2022} Try with a shorter business description\n"
      + "\U{2022} Check your internet connection\n" + "\U{2022} Try again in a moment"
    case Network => "\U{1F4A1} Please check" + " your internet connection and try again."
    case Generic => "\U{1F4A1} Please try again." + " If the problem persists, contact support."
  }

  /** showErrorAlert's message, built step by step. */
  method AlertMessage(errorMessage: string) returns (message: string)
    ensures message == AlertHeader + errorMessage + "\n\n" + HintText(SelectHint(errorMessage))
  {
    message := AlertHeader;
    message := message + errorMessage + "\n\n";
    ghost var opening := message;
    if Includes(errorMessage, KeyMissingText) {
      message := message + "\U{26A0}\U{FE0F} This is a server configuration issue.\n";
      message := message + "Please contact ClientMint support.";
    } else if Includes(errorMessage, TimeoutText) || Includes(errorMessage, TimedOutText) {
      message := message + "\U{1F4A1} Suggestion:\n";
      message := message + "\U{2022} Try with a shorter business description\n";
      message := message + "\U{2022} Check your internet connection\n";
      message := message + "\U{2022} Try again in a moment";
    } else if Includes(errorMessage, NetworkText) {
      message := message + ("\U{1F4A1} Please check" + " your internet connection and try again.");
    } else {
      message := message + ("\U{1F4A1} Please try again." + " If the problem persists, contact support.");
    }
    assert message == opening + HintText(SelectHint(errorMessage));
  }

  /** The alert always opens with the header and the error's own message. */
  lemma AlertOpensWithMessage(errorMessage: string, hint: Hint)
    ensures StartsWith(AlertHeader + errorMessage + "\n\n" + HintText(hint), AlertHeader + errorMessage)
  {
    var m := AlertHeader + errorMessage + "\n\n" + HintText(hint);
    assert m == (AlertHeader + errorMessage) + ("\n\n" + HintText(hint));
  }

  /** The hints are tried in order: the key message over a timeout, a
    * timeout over a network error, a network error over the generic hint. */
  lemma HintPrecedence(message: string)
    ensures SelectHint(message) == Configuration <==> Includes(message, KeyMissingText)
    ensures SelectHint(message) == Timeout <==>
              !Includes(message, KeyMissingText)
              && (Includes(message, TimeoutText) || Includes(message, TimedOutText))
    ensures SelectHint(message) == Network <==>
              !Includes(message, KeyMissingText) && !Includes(message, TimeoutText)
              && !Includes(message, TimedOutText) && Includes(message, NetworkText)
  {
  }

  /** A message that says "timed out" and has no underscore, so cannot name
    * the key variable, gets the timeout hint. */
  lemma TimedOutHint(message: string)
    requires Includes(message, TimedOutText) && '_' !in message
    ensures SelectHint(message) == Timeout
  {
    if Includes(message, KeyMissingText) {
      IncludesChars(message, KeyMissingText, 9);
    }
  }

  /** The message of the client's own 60-second timeout. */
  const ClientTimeoutMessage := "Generation " + TimedOutText + " after 60 seconds." + " Please try with a shorter description" + " or try again."

  /** The client's own timeout gets the timeout hint. */
  lemma ClientTimeoutHint()
    ensures SelectHint(ClientTimeoutMessage) == Timeout
  {
    var m := ClientTimeoutMessage;
    assert Includes(m, TimedOutText) by {
      assert m[11..20] == TimedOutText;
      IncludesAt(m, TimedOutText, 11);
    }
    assert '_' !in m by {
      assert '_' !in "Generation " && '_' !in TimedOutText && '_' !in " after 60 seconds.";
      assert '_' !in " Please try with a shorter description" && '_' !in " or try again.";
    }
    TimedOutHint(m);
  }
}
