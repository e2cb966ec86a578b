/**
 * The daily-challenges page: a list of challenges, the challenge whose
 * upload dialog is open, and the uploaded photo.  Submitting awards a
 * challenge's points at most once; the page splits the list into today's
 * and previous challenges by date.
 */
module ChallengesPage {

  import opened Wrappers

  datatype Challenge = Challenge(
    id: string, title: string, description: string, points: int, date: string, completed: bool)

  datatype Page = Page(challenges: seq<Challenge>, selected: Option<string>, uploadedImage: Option<string>)

  /** What `submitChallenge` leaves behind, and the amount it passed to `addPoints`, if it called it. */
  datatype Submission = Submission(page: Page, award: Option<int>)

  /** The date the page treats as today. */
  const Today: string := "2025-01-15"

  const InitialChallenges: seq<Challenge> := [
    Challenge("1", "Zero Waste Lunch",
      "Pack a lunch without any single-use items. Show us your sustainable meal setup!", 25, "2025-01-15", false),
    Challenge("2", "Plastic-Free Shopping",
      "Complete your grocery shopping without using any plastic bags. Share your eco-friendly alternatives.", 30, "2025-01-15", false),
    Challenge("3", "Energy Conservation",
      "Show us how you're reducing energy consumption at home or work.", 20, "2025-01-14", false),
    Challenge("4", "Nature Cleanup",
      "Participate in cleaning a local park, beach, or natural area. Document your impact!", 40, "2025-01-14", false)
  ]

  /** The page when it is first shown: the initial challenges, no dialog open, no photo. */
  const InitialPage: Page := Page(InitialChallenges, None, None)

  /** `Array.prototype.find` by id: the index of the first challenge with `id`. */
  function FindById(cs: seq<Challenge>, id: string): (r: Option<nat>)
    ensures r.Some? ==> r.value < |cs| && cs[r.value].id == id
    ensures r.Some? ==> forall j :: 0 <= j < r.value ==> cs[j].id != id
    ensures r.None? <==> forall j :: 0 <= j < |cs| ==> cs[j].id != id
    decreases |cs|
  {
    if cs == [] then None
    else if cs[0].id == id then Some(0)
    else match FindById(cs[1..], id)
      case None => None
      case Some(k) => Some(k + 1)
  }

  /** The `map` that marks every challenge with `id` completed and keeps the others. */
  function MarkCompleted(cs: seq<Challenge>, id: string): (r: seq<Challenge>)
    ensures |r| == |cs|
    ensures forall i :: 0 <= i < |cs| ==> r[i] == if cs[i].id == id then cs[i].(completed := true) else cs[i]
    decreases |cs|
  {
    if cs == [] then []
    else [if cs[0].id == id then cs[0].(completed := true) else cs[0]] + MarkCompleted(cs[1..], id)
  }

  /** `submitChallenge(id)`. */
  function Submit(p: Page, id: string): (r: Submission)
    ensures r.page.selected == None && r.page.uploadedImage == None
  {
    var found := FindById(p.challenges, id);
    var open := found.Some? && !p.challenges[found.value].completed;
    var cs := if open then MarkCompleted(p.challenges, id) else p.challenges;
    Submission(Page(cs, None, None), if open then Some(p.challenges[found.value].points) else None)
  }

  /** Submitting an existing, uncompleted challenge awards exactly its points and marks it completed. */
  lemma SubmitAwardsPoints(p: Page, id: string, i: nat)
    requires i < |p.challenges| && p.challenges[i].id == id
    requires forall j :: 0 <= j < i ==> p.challenges[j].id != id
    requires !p.challenges[i].completed
    ensures Submit(p, id).award == Some(p.challenges[i].points)
    ensures Submit(p, id).page.challenges[i] == p.challenges[i].(completed := true)
  {
    assert FindById(p.challenges, id) == Some(i);
  }

  /** Submission changes nothing but the `completed` flag of the challenges with that id. */
  lemma SubmitChangesOnlyMatching(p: Page, id: string)
    ensures |Submit(p, id).page.challenges| == |p.challenges|
    ensures forall i :: 0 <= i < |p.challenges| && p.challenges[i].id != id ==>
      Submit(p, id).page.challenges[i] == p.challenges[i]
    ensures forall i :: 0 <= i < |p.challenges| ==>
      Submit(p, id).page.challenges[i].(completed := p.challenges[i].completed) == p.challenges[i]
  {
  }

  predicate UniqueIds(cs: seq<Challenge>)
  {
    forall i, j :: 0 <= i < j < |cs| ==> cs[i].id != cs[j].id
  }

  /** With distinct ids, a successful submission updates exactly that one entry. */
  lemma SubmitUpdatesOneEntry(p: Page, id: string, i: nat)
    requires UniqueIds(p.challenges)
    requires i < |p.challenges| && p.challenges[i].id == id && !p.challenges[i].completed
    ensures Submit(p, id).page.challenges == p.challenges[i := p.challenges[i].(completed := true)]
  {
    assert FindById(p.challenges, id) == Some(i);
  }

  /** An unknown id or an already-completed challenge awards nothing and changes no challenge. */
  lemma SubmitUnknownOrCompleted(p: Page, id: string)
    requires FindById(p.challenges, id).None? || p.challenges[FindById(p.challenges, id).value].completed
    ensures Submit(p, id).award == None
    ensures Submit(p, id).page.challenges == p.challenges
  {
  }

  /** Submitting the same id twice awards at most once: the repeat awards nothing and changes nothing. */
  lemma {:induction false} SubmitTwice(p: Page, id: string)
    ensures Submit(Submit(p, id).page, id).award == None
    ensures Submit(Submit(p, id).page, id).page == Submit(p, id).page
  {
    var q := Submit(p, id).page;
    var found := FindById(p.challenges, id);
    if found.Some? && !p.challenges[found.value].completed {
      var k := found.value;
      assert q.challenges[k].id == id && q.challenges[k].completed;
      assert forall j :: 0 <= j < k ==> q.challenges[j].id != id;
    }
  }

  // ---------------------------------------------------------------------
  // Today's and previous challenges

  /** `filter(c => c.date === Today)` when `onToday`, `filter(c => c.date !== Today)` otherwise. */
  function FilterByDate(cs: seq<Challenge>, onToday: bool): seq<Challenge>
    decreases |cs|
  {
    if cs == [] then []
    else (if (cs[0].date == Today) == onToday then [cs[0]] else []) + FilterByDate(cs[1..], onToday)
  }

  function TodaysChallenges(cs: seq<Challenge>): seq<Challenge> { FilterByDate(cs, true) }

  function PreviousChallenges(cs: seq<Challenge>): seq<Challenge> { FilterByDate(cs, false) }

  /** The filter keeps exactly the challenges of the requested side. */
  lemma {:induction false} FilterByDateMembers(cs: seq<Challenge>, onToday: bool)
    ensures forall c :: c in FilterByDate(cs, onToday) <==> c in cs && (c.date == Today) == onToday
    decreases |cs|
  {
    if cs != [] {
      FilterByDateMembers(cs[1..], onToday);
      assert cs == [cs[0]] + cs[1..];
    }
  }

  /** The filter keeps the original order: filtering a concatenation filters each part. */
  lemma {:induction false} FilterByDateAppend(a: seq<Challenge>, b: seq<Challenge>, onToday: bool)
    ensures FilterByDate(a + b, onToday) == FilterByDate(a, onToday) + FilterByDate(b, onToday)
    decreases |a|
  {
    if a == [] {
      assert a + b == b;
    } else {
      FilterByDateAppend(a[1..], b, onToday);
      assert (a + b)[0] == a[0];
      assert (a + b)[1..] == a[1..] + b;
      var head := if (a[0].date == Today) == onToday then [a[0]] else [];
      assert FilterByDate(a, onToday) == head + FilterByDate(a[1..], onToday);
      assert FilterByDate(a + b, onToday) == head + FilterByDate(a[1..] + b, onToday);
    }
  }

  /** Today's and previous challenges partition the list: each entry lands in exactly one of them. */
  lemma {:induction false} TodayPreviousPartition(cs: seq<Challenge>)
    ensures multiset(TodaysChallenges(cs)) + multiset(PreviousChallenges(cs)) == multiset(cs)
    ensures forall c :: c in cs ==> (c in TodaysChallenges(cs) <==> c !in PreviousChallenges(cs))
    decreases |cs|
  {
    FilterByDateMembers(cs, true);
    FilterByDateMembers(cs, false);
    if cs != [] {
      TodayPreviousPartition(cs[1..]);
      assert cs == [cs[0]] + cs[1..];
    }
  }

  /** On the initial data, today holds challenges 1 and 2 and previous holds 3 and 4. */
  lemma InitialSplit()
    ensures TodaysChallenges(InitialChallenges) == InitialChallenges[..2]
    ensures PreviousChallenges(InitialChallenges) == InitialChallenges[2..]
  {
    assert InitialChallenges[1..][1..][1..][1..] == [];
  }
}
