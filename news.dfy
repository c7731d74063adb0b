/** The news page helpers: the first-match classifier that colours each news item, the label
    shown with that colour, the colour legend, and the relative "N days ago" text. */
module News {
  import opened Basics
  import opened Text

  /** One feed item. `title`, `contentSnippet` and `source` may be missing. */
  datatype NewsItem = NewsItem(
    title: Option<string>,
    link: string,
    pubDate: string,
    contentSnippet: Option<string>,
    source: Option<string>,
    categories: seq<string>)

  /** `(field || '')`: a missing field reads as the empty string. */
  function OrEmpty(field: Option<string>): (text: string)
    ensures field.Some? ==> text == field.value
    ensures field.None? ==> text == ""
  {
    if field.Some? then field.value else ""
  }

  /** The seven colour classes, in the order the classifier tries them; `Gray` is the fallback. */
  datatype Tone = Red | Blue | Green | Purple | Yellow | Cyan | Gray

  /** The lower-cased text of an item the classifier looks at. */
  datatype Fields = Fields(title: string, source: string, content: string)

  function FieldsOf(item: NewsItem): (fields: Fields)
    ensures fields.title == ToLower(OrEmpty(item.title))
    ensures fields.source == ToLower(OrEmpty(item.source))
    ensures fields.content == ToLower(OrEmpty(item.contentSnippet))
  {
    Fields(ToLower(OrEmpty(item.title)), ToLower(OrEmpty(item.source)), ToLower(OrEmpty(item.contentSnippet)))
  }

  predicate SecurityRelated(f: Fields)
  {
    Contains(f.title, "security") || Contains(f.content, "security") || Contains(f.source, "security") ||
    Contains(f.title, "compliance") || Contains(f.content, "compliance")
  }

  predicate Announcement(f: Fields)
  {
    Contains(f.title, "announcement") || Contains(f.title, "launch") || Contains(f.title, "introduces") ||
    Contains(f.title, "adds support") || Contains(f.title, "now supports") || Contains(f.title, "available")
  }

  predicate Improvement(f: Fields)
  {
    Contains(f.title, "update") || Contains(f.title, "improvement") || Contains(f.title, "enhanced") ||
    Contains(f.title, "improved") || Contains(f.content, "enhancement")
  }

  predicate BlogContent(f: Fields)
  {
    Contains(f.source, "blog") || Contains(f.source, "article")
  }

  predicate ServiceContent(f: Fields)
  {
    Contains(f.title, "service") || Contains(f.title, "feature") || Contains(f.content, "service") ||
    Contains(f.title, "amazon") || Contains(f.title, "aws")
  }

  predicate GuideContent(f: Fields)
  {
    Contains(f.title, "guide") || Contains(f.title, "tutorial") || Contains(f.title, "how to") ||
    Contains(f.content, "learn more") || Contains(f.content, "documentation")
  }

  /** The classifier of `getCategoryColor`, as its chain of `if`s. */
  function ToneFor(f: Fields): Tone
  {
    if SecurityRelated(f) then Red
    else if Announcement(f) then Blue
    else if Improvement(f) then Green
    else if BlogContent(f) then Purple
    else if ServiceContent(f) then Yellow
    else if GuideContent(f) then Cyan
    else Gray
  }

  function CategoryTone(item: NewsItem): Tone
  {
    ToneFor(FieldsOf(item))
  }

  // The classifier as a table: each tone's test, tried in a fixed order

  /** The order in which the classes are tried. */
  const ToneOrder: seq<Tone> := [Red, Blue, Green, Purple, Yellow, Cyan, Gray]

  /** The test of one class; the fallback class accepts everything. */
  predicate Accepts(tone: Tone, f: Fields)
  {
    match tone
    case Red => SecurityRelated(f)
    case Blue => Announcement(f)
    case Green => Improvement(f)
    case Purple => BlogContent(f)
    case Yellow => ServiceContent(f)
    case Cyan => GuideContent(f)
    case Gray => true
  }

  /** The first tone of `tones` that accepts the fields, or `Gray` when none does. */
  function FirstAccepting(tones: seq<Tone>, f: Fields): (tone: Tone)
    ensures tone in tones || tone == Gray
    ensures Accepts(tone, f)
  {
    if tones == [] then Gray
    else if Accepts(tones[0], f) then tones[0]
    else FirstAccepting(tones[1..], f)
  }

  /** The `if` chain picks the first accepting class of the fixed order. */
  lemma ToneIsFirstMatch(f: Fields)
    ensures ToneFor(f) == FirstAccepting(ToneOrder, f)
  {
    var o := ToneOrder;
    assert FirstAccepting(o, f) == if SecurityRelated(f) then Red else FirstAccepting(o[1..], f);
    var o1 := o[1..];
    assert o1[0] == Blue;
    assert FirstAccepting(o1, f) == if Announcement(f) then Blue else FirstAccepting(o1[1..], f);
    var o2 := o1[1..];
    assert o2[0] == Green;
    assert FirstAccepting(o2, f) == if Improvement(f) then Green else FirstAccepting(o2[1..], f);
    var o3 := o2[1..];
    assert o3[0] == Purple;
    assert FirstAccepting(o3, f) == if BlogContent(f) then Purple else FirstAccepting(o3[1..], f);
    var o4 := o3[1..];
    assert o4[0] == Yellow;
    assert FirstAccepting(o4, f) == if ServiceContent(f) then Yellow else FirstAccepting(o4[1..], f);
    var o5 := o4[1..];
    assert o5[0] == Cyan;
    assert FirstAccepting(o5, f) == if GuideContent(f) then Cyan else FirstAccepting(o5[1..], f);
    assert o5[1..] == [Gray];
    assert FirstAccepting(o5[1..], f) == Gray;
  }

  /** Every class tried before the one `FirstAccepting` picks rejects the fields. */
  lemma {:induction false} RejectedBefore(tones: seq<Tone>, f: Fields, i: nat)
    requires NoDuplicates(tones) && i < |tones| && tones[i] == FirstAccepting(tones, f)
    ensures forall k :: 0 <= k < i ==> !Accepts(tones[k], f)
  {
    if i > 0 {
      assert tones[0] != tones[i];
      assert !Accepts(tones[0], f);
      assert FirstAccepting(tones, f) == FirstAccepting(tones[1..], f);
      RejectedBefore(tones[1..], f, i - 1);
      assert forall k :: 1 <= k < i ==> tones[k] == tones[1..][k - 1];
    }
  }

  /** The classifier's choice accepts the fields, and every class tried before it rejects them. */
  lemma ClassifierIsFirstMatch(f: Fields)
    ensures Accepts(ToneFor(f), f)
    ensures forall k :: 0 <= k < ToneIndex(ToneFor(f)) ==> !Accepts(ToneOrder[k], f)
  {
    ToneIsFirstMatch(f);
    var tone := ToneFor(f);
    assert forall i :: 0 <= i < |ToneOrder| ==> ToneIndex(ToneOrder[i]) == i;
    RejectedBefore(ToneOrder, f, ToneIndex(tone));
  }

  /** The position of a tone in the classifier order. */
  function ToneIndex(tone: Tone): (i: nat)
    ensures i < |ToneOrder| && ToneOrder[i] == tone
  {
    match tone
    case Red => 0
    case Blue => 1
    case Green => 2
    case Purple => 3
    case Yellow => 4
    case Cyan => 5
    case Gray => 6
  }

  /** A "security" or "compliance" hit wins over every other class, and it is the only way to Red. */
  lemma SecurityTakesPrecedence(item: NewsItem)
    ensures CategoryTone(item) == Red <==> SecurityRelated(FieldsOf(item))
  {
  }

  /** The gray "General" class is given exactly when no test matches. */
  lemma GrayIsFallback(item: NewsItem)
    ensures var f := FieldsOf(item);
            CategoryTone(item) == Gray <==>
              !SecurityRelated(f) && !Announcement(f) && !Improvement(f) && !BlogContent(f) &&
              !ServiceContent(f) && !GuideContent(f)
  {
  }

  /** A missing field classifies as an empty one, and the classifier ignores letter case. */
  lemma MissingAndCase(item: NewsItem)
    ensures CategoryTone(item) == CategoryTone(item.(title := Some(OrEmpty(item.title)),
                                                     source := Some(OrEmpty(item.source)),
                                                     contentSnippet := Some(OrEmpty(item.contentSnippet))))
    ensures CategoryTone(item) == CategoryTone(item.(title := Some(ToLower(OrEmpty(item.title))),
                                                     source := Some(ToLower(OrEmpty(item.source))),
                                                     contentSnippet := Some(ToLower(OrEmpty(item.contentSnippet)))))
  {
    ToLowerIdempotent(OrEmpty(item.title));
    ToLowerIdempotent(OrEmpty(item.source));
    ToLowerIdempotent(OrEmpty(item.contentSnippet));
  }

  // Colours, labels and the legend

  const RedClass := "bg-red-500/20 text-red-400 border-red-500/30"
  const BlueClass := "bg-blue-500/20 text-blue-400 border-blue-500/30"
  const GreenClass := "bg-green-500/20 text-green-400 border-green-500/30"
  const PurpleClass := "bg-purple-500/20 text-purple-400 border-purple-500/30"
  const YellowClass := "bg-yellow-500/20 text-yellow-400 border-yellow-500/30"
  const CyanClass := "bg-cyan-500/20 text-cyan-400 border-cyan-500/30"
  const GrayClass := "bg-gray-500/20 text-gray-400 border-gray-500/30"

  /** The colour class of a tone. */
  function ClassOf(tone: Tone): string
  {
    match tone
    case Red => RedClass
    case Blue => BlueClass
    case Green => GreenClass
    case Purple => PurpleClass
    case Yellow => YellowClass
    case Cyan => CyanClass
    case Gray => GrayClass
  }

  function LabelOf(tone: Tone): string
  {
    match tone
    case Red => "Security & Compliance"
    case Blue => "Announcements & Launches"
    case Green => "Updates & Improvements"
    case Purple => "Blog Articles"
    case Yellow => "Services & Features"
    case Cyan => "Guides & Tutorials"
    case Gray => "General"
  }

  /** `getCategoryColor`. */
  function CategoryColor(item: NewsItem): string
  {
    ClassOf(CategoryTone(item))
  }

  /** `getCategoryLabel`. */
  function CategoryLabel(item: NewsItem): string
  {
    LabelOf(CategoryTone(item))
  }

  /** The length of a tone's class and the last letter of its hue, eight characters from the end. */
  lemma ClassShape(tone: Tone)
    ensures |ClassOf(tone)| == (match tone case Red => 44 case Blue => 47 case Green => 50 case Purple => 53
                                            case Yellow => 53 case Cyan => 47 case Gray => 47)
    ensures ClassOf(tone)[|ClassOf(tone)| - 8] ==
            (match tone case Red => 'd' case Blue => 'e' case Green => 'n' case Purple => 'e'
                        case Yellow => 'w' case Cyan => 'n' case Gray => 'y')
  {
    match tone
    case Red => assert RedClass[36] == 'd';
    case Blue => assert BlueClass[39] == 'e';
    case Green => assert GreenClass[42] == 'n';
    case Purple => assert PurpleClass[45] == 'e';
    case Yellow => assert YellowClass[45] == 'w';
    case Cyan => assert CyanClass[39] == 'n';
    case Gray => assert GrayClass[39] == 'y';
  }

  /** Different tones have different colour classes (they differ in length or in the last letter
      of the hue) and different labels (they differ in length). */
  lemma ClassesAndLabelsDistinct(t1: Tone, t2: Tone)
    requires t1 != t2
    ensures ClassOf(t1) != ClassOf(t2)
    ensures LabelOf(t1) != LabelOf(t2)
  {
    ClassShape(t1);
    ClassShape(t2);
    assert |LabelOf(t1)| != |LabelOf(t2)|;
  }

  /** One row of the legend. */
  datatype LegendEntry = LegendEntry(color: string, labelText: string, description: string)

  /** `categoryLegend`, in display order. */
  const CategoryLegend: seq<LegendEntry> := [
    LegendEntry(RedClass, "Security & Compliance", "Security updates and compliance information"),
    LegendEntry(BlueClass, "Announcements & Launches", "New service announcements and launches"),
    LegendEntry(GreenClass, "Updates & Improvements", "Service updates and improvements"),
    LegendEntry(PurpleClass, "Blog Articles", "Blog posts and articles"),
    LegendEntry(YellowClass, "Services & Features", "Service and feature information"),
    LegendEntry(CyanClass, "Guides & Tutorials", "How-to guides and tutorials"),
    LegendEntry(GrayClass, "General", "General AWS content")]

  /** The legend lists the tones in classifier order, each with its class and label. */
  lemma LegendFollowsTones()
    ensures |CategoryLegend| == |ToneOrder|
    ensures forall i :: 0 <= i < |ToneOrder| ==>
              CategoryLegend[i].color == ClassOf(ToneOrder[i]) && CategoryLegend[i].labelText == LabelOf(ToneOrder[i])
  {
  }

  /** The label shown with an item is the label of the one legend row whose colour is the item's. */
  lemma LabelMatchesLegend(item: NewsItem)
    ensures exists i :: 0 <= i < |CategoryLegend| && CategoryLegend[i].color == CategoryColor(item)
    ensures forall i :: 0 <= i < |CategoryLegend| && CategoryLegend[i].color == CategoryColor(item) ==>
              CategoryLegend[i].labelText == CategoryLabel(item)
  {
    LegendFollowsTones();
    var tone := CategoryTone(item);
    var k := ToneIndex(tone);
    assert CategoryLegend[k].color == CategoryColor(item);
    forall i | 0 <= i < |CategoryLegend| && CategoryLegend[i].color == CategoryColor(item)
      ensures CategoryLegend[i].labelText == CategoryLabel(item)
    {
      if ToneOrder[i] != tone {
        ClassesAndLabelsDistinct(ToneOrder[i], tone);
      }
    }
  }

  // Relative time

  const MillisecondsPerHour := 1000 * 60 * 60

  /** `formatTimeAgo`, given the milliseconds between publication and now; `None` stands for an
      unparseable date, whose difference is `NaN`. `/` on a positive divisor is `Math.floor`. */
  function FormatTimeAgo(diffMs: Option<int>): string
  {
    if diffMs.None? then "Recently"
    else
      var diffHours := diffMs.value / MillisecondsPerHour;
      var diffDays := diffHours / 24;
      if diffDays > 0 then NatToString(diffDays) + " day" + (if diffDays > 1 then "s" else "") + " ago"
      else if diffHours > 0 then NatToString(diffHours) + " hour" + (if diffHours > 1 then "s" else "") + " ago"
      else "Recently"
  }

  /** Whole days of 24 hours, counted from the floored hours, are the floored days. */
  lemma FloorDays(diffMs: int)
    ensures (diffMs / MillisecondsPerHour) / 24 == diffMs / (24 * MillisecondsPerHour)
  {
    var h := diffMs / MillisecondsPerHour;
    var d := h / 24;
    assert diffMs == h * MillisecondsPerHour + diffMs % MillisecondsPerHour;
    assert h == d * 24 + h % 24;
    assert diffMs == d * (24 * MillisecondsPerHour) + ((h % 24) * MillisecondsPerHour + diffMs % MillisecondsPerHour);
  }

  /** From one whole day on, the text counts the whole days, with a plural from two days on. */
  lemma DayForm(diffMs: int)
    requires diffMs >= 24 * MillisecondsPerHour
    ensures FormatTimeAgo(Some(diffMs)) ==
            NatToString(diffMs / (24 * MillisecondsPerHour)) + " day" +
            (if diffMs >= 2 * 24 * MillisecondsPerHour then "s" else "") + " ago"
  {
    FloorDays(diffMs);
    var days := diffMs / (24 * MillisecondsPerHour);
    assert days > 0;
    assert days > 1 <==> diffMs >= 2 * 24 * MillisecondsPerHour;
  }

  /** From one whole hour up to a day, the text counts the whole hours, with a plural from two
      hours on. */
  lemma HourForm(diffMs: int)
    requires MillisecondsPerHour <= diffMs < 24 * MillisecondsPerHour
    ensures FormatTimeAgo(Some(diffMs)) ==
            NatToString(diffMs / MillisecondsPerHour) + " hour" +
            (if diffMs >= 2 * MillisecondsPerHour then "s" else "") + " ago"
  {
    var hours := diffMs / MillisecondsPerHour;
    assert 0 < hours < 24;
    assert hours > 1 <==> diffMs >= 2 * MillisecondsPerHour;
  }

  /** Below one whole hour, including every date in the future, the text is "Recently". */
  lemma RecentForm(diffMs: int)
    requires diffMs < MillisecondsPerHour
    ensures FormatTimeAgo(Some(diffMs)) == "Recently"
  {
    var hours := diffMs / MillisecondsPerHour;
    assert hours <= 0;
    assert hours / 24 <= 0;
  }

  /** A publication time in the future, or one that cannot be parsed, reads "Recently". */
  lemma FutureIsRecent(diffMs: int)
    requires diffMs < 0
    ensures FormatTimeAgo(Some(diffMs)) == "Recently"
    ensures FormatTimeAgo(None) == "Recently"
  {
    RecentForm(diffMs);
  }
}
