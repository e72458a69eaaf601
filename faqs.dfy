/**
 * The FAQ accordion: at most one question is open, held as an optional id. A question's
 * button toggles it, "All Questions" closes everything, and a category button opens the
 * first question of that category. The category buttons come from the questions'
 * categories with repeats removed, in order of first appearance.
 */
module FAQs {
  import opened Wrappers
  import opened Counting

  /** A question, reduced to what the accordion uses: its id and its category. */
  datatype Faq = Faq(id: nat, category: string)

  /** The twelve questions on the page, in order. */
  const Faqs: seq<Faq> := [
    Faq(1, "General"), Faq(2, "Customization"), Faq(3, "Materials"), Faq(4, "Ordering"),
    Faq(5, "Production"), Faq(6, "Design"), Faq(7, "Pricing"), Faq(8, "Shipping"),
    Faq(9, "Quality"), Faq(10, "Samples"), Faq(11, "Payment"), Faq(12, "Support")
  ]

  function Ids(fs: seq<Faq>): (ids: seq<nat>)
    ensures |ids| == |fs|
    ensures forall i :: 0 <= i < |fs| ==> ids[i] == fs[i].id
  {
    seq(|fs|, i requires 0 <= i < |fs| => fs[i].id)
  }

  /** `faqs.map(faq => faq.category)`. */
  function CategoriesOf(fs: seq<Faq>): (cs: seq<string>)
    ensures |cs| == |fs|
    ensures forall i :: 0 <= i < |fs| ==> cs[i] == fs[i].category
  {
    seq(|fs|, i requires 0 <= i < |fs| => fs[i].category)
  }

  /** The position of the first occurrence of `x` in `s`. */
  function FirstIndex<T(==)>(s: seq<T>, x: T): (k: nat)
    requires x in s
    ensures k < |s| && s[k] == x
    ensures forall j :: 0 <= j < k ==> s[j] != x
  {
    if s[0] == x then 0 else 1 + FirstIndex(s[1..], x)
  }

  /** `[...new Set(s)]`: each value once, at the place of its first occurrence. */
  function Dedupe<T(==)>(s: seq<T>): (r: seq<T>)
    decreases |s|
  {
    if s == [] then []
    else
      var r := Dedupe(s[..|s| - 1]);
      if s[|s| - 1] in r then r else r + [s[|s| - 1]]
  }

  /** Appending a value leaves the first occurrence of every earlier value where it was. */
  lemma FirstIndexAppend<T>(p: seq<T>, x: T, y: T)
    requires y in p
    ensures FirstIndex(p + [x], y) == FirstIndex(p, y)
  {
    var k := FirstIndex(p + [x], y);
    var k' := FirstIndex(p, y);
    assert (p + [x])[k'] == y;
  }

  /**
   * The deduplicated list holds no value twice, holds exactly the values of the input,
   * and lists them in the order of their first occurrences.
   */
  lemma {:induction false} DedupeCorrect<T>(s: seq<T>)
    ensures Distinct(Dedupe(s))
    ensures forall x :: x in Dedupe(s) ==> x in s
    ensures forall x :: x in s ==> x in Dedupe(s)
    ensures forall i, j :: 0 <= i < j < |Dedupe(s)| ==> FirstIndex(s, Dedupe(s)[i]) < FirstIndex(s, Dedupe(s)[j])
    decreases |s|
  {
    if s != [] {
      var p := s[..|s| - 1];
      var x := s[|s| - 1];
      assert s == p + [x];
      DedupeCorrect(p);
      var r := Dedupe(p);
      forall y | y in r
        ensures FirstIndex(s, y) == FirstIndex(p, y)
      {
        FirstIndexAppend(p, x, y);
      }
      if x !in r {
        assert x !in p;
        assert FirstIndex(s, x) == |s| - 1;
        forall i, j | 0 <= i < j < |Dedupe(s)|
          ensures FirstIndex(s, Dedupe(s)[i]) < FirstIndex(s, Dedupe(s)[j])
        {
          if j == |r| {
            assert Dedupe(s)[i] == r[i];
            assert Dedupe(s)[i] in r;
          } else {
            assert Dedupe(s)[i] == r[i] && Dedupe(s)[j] == r[j];
          }
        }
      }
    }
  }

  /** An input without repetitions comes back unchanged. */
  lemma {:induction false} DedupeOfDistinct<T>(s: seq<T>)
    requires Distinct(s)
    ensures Dedupe(s) == s
    decreases |s|
  {
    if s != [] {
      var p := s[..|s| - 1];
      assert Distinct(p);
      DedupeOfDistinct(p);
      assert s[|s| - 1] !in p by {
        forall i | 0 <= i < |p| ensures p[i] != s[|s| - 1] {
          assert s[i] != s[|s| - 1];
        }
      }
      assert s == p + [s[|s| - 1]];
    }
  }

  /** The category buttons: one per distinct category, in order of first use. */
  function CategoryButtons(fs: seq<Faq>): (cs: seq<string>)
    ensures Distinct(cs)
    ensures forall c :: c in cs <==> exists i :: 0 <= i < |fs| && fs[i].category == c
  {
    DedupeCorrect(CategoriesOf(fs));
    var cs := Dedupe(CategoriesOf(fs));
    assert forall c :: c in CategoriesOf(fs) <==> exists i :: 0 <= i < |fs| && fs[i].category == c by {
      forall c | c in CategoriesOf(fs) ensures exists i :: 0 <= i < |fs| && fs[i].category == c {
        var i := FirstIndex(CategoriesOf(fs), c);
        assert fs[i].category == c;
      }
    }
    cs
  }

  /** The page's twelve questions each have their own category, so there is one button per question. */
  lemma PageHasOneButtonPerQuestion()
    ensures CategoryButtons(Faqs) == CategoriesOf(Faqs)
    ensures |CategoryButtons(Faqs)| == 12
  {
    var cs := CategoriesOf(Faqs);
    assert cs == ["General", "Customization", "Materials", "Ordering", "Production", "Design",
                  "Pricing", "Shipping", "Quality", "Samples", "Payment", "Support"];
    DedupeOfDistinct(cs);
  }

  /** `faqs.filter(faq => faq.category === category)`. */
  function Filter(fs: seq<Faq>, category: string): (r: seq<Faq>)
    ensures |r| <= |fs|
    ensures forall f :: f in r <==> f in fs && f.category == category
  {
    if fs == [] then []
    else if fs[0].category == category then [fs[0]] + Filter(fs[1..], category)
    else Filter(fs[1..], category)
  }

  /** The first filtered question is the first question of that category in list order. */
  lemma {:induction false} FilterHeadIsFirst(fs: seq<Faq>, category: string)
    requires Filter(fs, category) != []
    ensures exists i :: (0 <= i < |fs| && fs[i] == Filter(fs, category)[0]
      && forall j :: 0 <= j < i ==> fs[j].category != category)
  {
    if fs[0].category != category {
      FilterHeadIsFirst(fs[1..], category);
      var i :| 0 <= i < |fs[1..]| && fs[1..][i] == Filter(fs[1..], category)[0]
        && forall j :: 0 <= j < i ==> fs[1..][j].category != category;
      assert fs[i + 1] == Filter(fs, category)[0];
      assert forall j :: 0 <= j < i + 1 ==> fs[j].category != category by {
        forall j | 0 <= j < i + 1 ensures fs[j].category != category {
          if j > 0 {
            assert fs[j] == fs[1..][j - 1];
          }
        }
      }
    } else {
      assert fs[0] == Filter(fs, category)[0];
    }
  }

  /** `toggleFAQ(id)`: closes `id` when it is the open one, otherwise opens `id`. */
  function Toggled(openFAQ: Option<nat>, id: nat): (r: Option<nat>)
    ensures r == None <==> openFAQ == Some(id)
    ensures r != None ==> r == Some(id)
  {
    if openFAQ == Some(id) then None else Some(id)
  }

  /** A category click: opens the first question of the category; changes nothing when none has it. */
  function CategoryClicked(openFAQ: Option<nat>, fs: seq<Faq>, category: string): (r: Option<nat>)
  {
    var matching := Filter(fs, category);
    if |matching| > 0 then Some(matching[0].id) else openFAQ
  }

  /**
   * After a category click: when some question has the category, the open one is the first
   * such question in list order; when none has it, nothing changes.
   */
  lemma CategoryClickOpensFirst(openFAQ: Option<nat>, fs: seq<Faq>, category: string)
    ensures (forall f :: f in fs ==> f.category != category) ==> CategoryClicked(openFAQ, fs, category) == openFAQ
    ensures (exists f :: f in fs && f.category == category) ==>
      exists i :: 0 <= i < |fs| && fs[i].category == category
        && CategoryClicked(openFAQ, fs, category) == Some(fs[i].id)
        && forall j :: 0 <= j < i ==> fs[j].category != category
  {
    var matching := Filter(fs, category);
    if exists f :: f in fs && f.category == category {
      var f :| f in fs && f.category == category;
      assert f in matching;
      FilterHeadIsFirst(fs, category);
      assert matching[0] in matching;
    }
  }

  /** Toggling the same question twice from the all-closed state closes it again. */
  lemma ToggleTwiceFromClosed(id: nat)
    ensures Toggled(None, id) == Some(id)
    ensures Toggled(Toggled(None, id), id) == None
  {
  }

  /** For each question in order, whether it carries the open class. */
  function OpenFlags(fs: seq<Faq>, openFAQ: Option<nat>): (flags: seq<bool>)
    ensures |flags| == |fs|
    ensures forall i :: 0 <= i < |fs| ==> (flags[i] <==> openFAQ == Some(fs[i].id))
  {
    seq(|fs|, i requires 0 <= i < |fs| => openFAQ == Some(fs[i].id))
  }

  /** With distinct ids, at most one question is shown open; exactly one when the open id is on the list. */
  lemma {:induction false} AtMostOneOpen(fs: seq<Faq>, openFAQ: Option<nat>)
    requires Distinct(Ids(fs))
    ensures CountTrue(OpenFlags(fs, openFAQ)) <= 1
    ensures CountTrue(OpenFlags(fs, openFAQ)) == 1 <==> openFAQ.Some? && openFAQ.value in Ids(fs)
  {
    if fs != [] {
      var tail := fs[1..];
      assert Distinct(Ids(tail)) by {
        assert forall i :: 0 <= i < |tail| ==> Ids(tail)[i] == Ids(fs)[i + 1];
      }
      AtMostOneOpen(tail, openFAQ);
      assert OpenFlags(fs, openFAQ)[1..] == OpenFlags(tail, openFAQ);
      assert Ids(fs) == [fs[0].id] + Ids(tail);
      if openFAQ == Some(fs[0].id) {
        assert true !in OpenFlags(tail, openFAQ) by {
          forall i | 0 <= i < |tail| ensures !OpenFlags(tail, openFAQ)[i] {
            assert Ids(fs)[0] != Ids(fs)[i + 1];
          }
        }
      }
    }
  }

  /** The page's questions have distinct ids, so at most one is shown open, and one exactly when the open id is 1 to 12. */
  lemma PageShowsAtMostOneOpen(openFAQ: Option<nat>)
    ensures CountTrue(OpenFlags(Faqs, openFAQ)) <= 1
    ensures CountTrue(OpenFlags(Faqs, openFAQ)) == 1 <==> openFAQ.Some? && 1 <= openFAQ.value <= 12
  {
    assert Ids(Faqs) == [1, 2, 3, 4, 5, 6, 7, 8, 9, 10, 11, 12];
    AtMostOneOpen(Faqs, openFAQ);
  }

  /** The accordion's state: the open question's id, if any. */
  class Accordion {
    const faqs: seq<Faq>
    var openFAQ: Option<nat>

    constructor (faqs: seq<Faq>)
      ensures this.faqs == faqs && openFAQ == None
    {
      this.faqs := faqs;
      openFAQ := None;
    }

    /** A question's button. */
    method Toggle(id: nat)
      modifies this
      ensures openFAQ == Toggled(old(openFAQ), id)
    {
      openFAQ := if openFAQ == Some(id) then None else Some(id);
    }

    /** "All Questions": closes every question. */
    method ShowAll()
      modifies this
      ensures openFAQ == None
    {
      openFAQ := None;
    }

    /** A category button. */
    method CategoryClick(category: string)
      modifies this
      ensures openFAQ == CategoryClicked(old(openFAQ), faqs, category)
    {
      var matching := Filter(faqs, category);
      if |matching| > 0 {
        openFAQ := Some(matching[0].id);
      }
    }
  }
}
