/** The community stories screen: a story composer in a modal, a row of category
    filter buttons, and a fixed feed of five stories. */
module Community {
  import opened Text

  /** A story of the feed; only what the screen's logic looks at is kept. */
  datatype Story = Story(id: nat, category: string, isAnonymous: bool)

  const Stories: seq<Story> := [
    Story(1, "Digital Safety", false),
    Story(2, "Workplace Safety", true),
    Story(3, "Community Support", false),
    Story(4, "Personal Safety", true),
    Story(5, "Community Support", false)
  ]

  /** The filter buttons, in order. */
  const Categories: seq<string> := [
    "All Stories", "Workplace Safety", "Digital Safety",
    "Personal Safety", "Community Support", "Success Stories"
  ]

  const CategoryColors: map<string, string> := map[
    "Workplace Safety" := "bg-blue-100 text-blue-700",
    "Digital Safety" := "bg-green-100 text-green-700",
    "Personal Safety" := "bg-red-100 text-red-700",
    "Community Support" := "bg-purple-100 text-purple-700",
    "Success Stories" := "bg-yellow-100 text-yellow-700"
  ]

  const DefaultColor: string := "bg-gray-100 text-gray-700"

  /** getCategoryColor */
  function CategoryColor(category: string): string {
    if category in CategoryColors then CategoryColors[category] else DefaultColor
  }

  /** Every category but "All Stories" has a colour of its own; any other string,
      "All Stories" among them, is gray. */
  lemma CategoryColorCases(category: string)
    ensures CategoryColor(category) == DefaultColor <==> category !in Categories[1..]
    ensures category in Categories[1..] ==> CategoryColor(category) == CategoryColors[category]
    ensures CategoryColor("All Stories") == DefaultColor
  {
    assert Categories[1..] == ["Workplace Safety", "Digital Safety", "Personal Safety",
                               "Community Support", "Success Stories"];
    assert category in CategoryColors <==> category in Categories[1..];
    ColourLetters();
  }

  /** Distinct named categories get distinct colours. */
  lemma CategoryColorInjective(a: string, b: string)
    requires a in CategoryColors && b in CategoryColors && a != b
    ensures CategoryColor(a) != CategoryColor(b)
  {
    ColourLetters();
  }

  /** The sixth letter of each colour class tells the colours apart. */
  lemma ColourLetters()
    ensures forall c :: c in CategoryColors ==> |CategoryColors[c]| > 5 && CategoryColors[c][5] != DefaultColor[5]
    ensures forall a, b :: a in CategoryColors && b in CategoryColors && a != b ==>
      CategoryColors[a][5] != CategoryColors[b][5]
  {
    assert DefaultColor[5] == 'a';
    assert CategoryColors["Workplace Safety"][5] == 'u';
    assert CategoryColors["Digital Safety"][5] == 'e';
    assert CategoryColors["Personal Safety"][5] == 'd';
    assert CategoryColors["Community Support"][5] == 'r';
    assert CategoryColors["Success Stories"][5] == 'l';
  }

  /** The stories the feed renders while `selectedCategory` is selected. */
  function Feed(selectedCategory: string): seq<Story> {
    Stories
  }

  /** The filter does not filter: whatever is selected, all five stories render, and for
      every filter but "All Stories" some of them are of another category. */
  lemma FeedIgnoresFilter(selectedCategory: string)
    ensures Feed(selectedCategory) == Stories && |Feed(selectedCategory)| == 5
    ensures selectedCategory != "All Stories" ==>
      exists i :: 0 <= i < |Feed(selectedCategory)| && Feed(selectedCategory)[i].category != selectedCategory
  {
    if Stories[0].category == selectedCategory {
      assert Feed(selectedCategory)[1].category != selectedCategory;
    } else {
      assert Feed(selectedCategory)[0].category != selectedCategory;
    }
  }

  /** Every story in the feed carries one of the coloured categories. */
  lemma StoriesAreColoured()
    ensures forall s :: s in Stories ==> s.category in CategoryColors && CategoryColor(s.category) != DefaultColor
  {
    forall s | s in Stories ensures s.category in CategoryColors && CategoryColor(s.category) != DefaultColor {
      CategoryColorCases(s.category);
    }
  }

  datatype ScreenState = ScreenState(
    showPostForm: bool,
    postText: string,
    isAnonymous: bool,
    selectedCategory: string)

  const InitialState: ScreenState := ScreenState(false, "", true, "All Stories")

  /** Whether "Share Story" is enabled for this draft. */
  predicate CanShare(postText: string) {
    Trim(postText) != ""
  }

  /** A draft can be shared exactly when it has a character that is not whitespace. */
  lemma CanShareIff(postText: string)
    ensures CanShare(postText) <==> exists i :: 0 <= i < |postText| && !IsWhitespace(postText[i])
  {
    TrimEmptyIff(postText);
  }

  class CommunityStories {
    var showPostForm: bool
    var postText: string
    var isAnonymous: bool
    var selectedCategory: string

    ghost function State(): ScreenState
      reads this
    {
      ScreenState(showPostForm, postText, isAnonymous, selectedCategory)
    }

    constructor ()
      ensures State() == InitialState
    {
      showPostForm := false;
      postText := "";
      isAnonymous := true;
      selectedCategory := "All Stories";
    }

    /** The header's Share button opens the composer; the draft is kept. */
    method OpenForm()
      modifies this
      ensures State() == old(State()).(showPostForm := true)
    {
      showPostForm := true;
    }

    /** Cancel hides the composer and keeps the draft. */
    method Cancel()
      modifies this
      ensures State() == old(State()).(showPostForm := false)
    {
      showPostForm := false;
    }

    method SetPostText(value: string)
      modifies this
      ensures State() == old(State()).(postText := value)
    {
      postText := value;
    }

    method SetAnonymous(checked: bool)
      modifies this
      ensures State() == old(State()).(isAnonymous := checked)
    {
      isAnonymous := checked;
    }

    /** A filter button: only the selection changes, and the feed stays the same. */
    method SelectCategory(category: string)
      modifies this
      ensures State() == old(State()).(selectedCategory := category)
      ensures Feed(selectedCategory) == Feed(old(selectedCategory))
    {
      selectedCategory := category;
    }

    /** "Share Story", in the open composer and enabled only for a non-blank draft: the
        draft is dropped and the composer closes; the feed does not change. */
    method HandlePost()
      requires showPostForm && CanShare(postText)
      modifies this
      ensures State() == old(State()).(postText := "", showPostForm := false)
    {
      postText := "";
      showPostForm := false;
    }
  }
}
