/** The history page: the signed-in user's stored analyses, at most one of
    them selected for the detail card, and deletion of a record.

    The table reads and deletes are inputs (FetchReply, DeleteReply) and the
    confirmation dialog's answer is a boolean. What the page sends to the
    backend is returned as the owner filter of the read and the
    DeleteRequest of a delete. */
module HistoryPage {
  import opened Types

  // ---------------------------------------------------------------------
  // Removing records by id

  /** The list with every record whose id is `id` filtered out. */
  function Without(list: seq<Analysis>, id: string): (r: seq<Analysis>)
    ensures |r| <= |list|
    ensures forall a :: a in r <==> a in list && a.id != id
  {
    if list == [] then []
    else
      assert list == [list[0]] + list[1..];
      (if list[0].id == id then [] else [list[0]]) + Without(list[1..], id)
  }

  /** s occurs in t in order, possibly with gaps. */
  predicate IsSubsequence(s: seq<Analysis>, t: seq<Analysis>)
    decreases |t|
  {
    if s == [] then true
    else if t == [] then false
    else if s[0] == t[0] then IsSubsequence(s[1..], t[1..])
    else IsSubsequence(s, t[1..])
  }

  /** The records that survive keep their relative order. */
  lemma {:induction false} WithoutIsSubsequence(list: seq<Analysis>, id: string)
    ensures IsSubsequence(Without(list, id), list)
  {
    if list != [] {
      WithoutIsSubsequence(list[1..], id);
      var rest := Without(list[1..], id);
      if list[0].id == id {
        assert Without(list, id) == rest;
        if rest != [] {
          assert rest[0] in rest;
          assert rest[0] != list[0];
        }
      } else {
        assert Without(list, id) == [list[0]] + rest;
        assert Without(list, id)[1..] == rest;
      }
    }
  }

  /** Every record whose id differs is kept as often as it occurs; those
      with the id are gone. */
  lemma {:induction false} WithoutCounts(list: seq<Analysis>, id: string, a: Analysis)
    ensures multiset(Without(list, id))[a] == if a.id == id then 0 else multiset(list)[a]
  {
    if list != [] {
      WithoutCounts(list[1..], id, a);
      assert list == [list[0]] + list[1..];
      assert multiset(list) == multiset([list[0]]) + multiset(list[1..]);
    }
  }

  /** Filtering a concatenation filters each part in place. */
  lemma {:induction false} WithoutConcat(l1: seq<Analysis>, l2: seq<Analysis>, id: string)
    ensures Without(l1 + l2, id) == Without(l1, id) + Without(l2, id)
  {
    if l1 == [] {
      assert l1 + l2 == l2;
    } else {
      assert (l1 + l2)[0] == l1[0];
      assert (l1 + l2)[1..] == l1[1..] + l2;
      WithoutConcat(l1[1..], l2, id);
    }
  }

  /** Filtering out an id that no record carries changes nothing. */
  lemma {:induction false} WithoutAbsent(list: seq<Analysis>, id: string)
    requires forall a :: a in list ==> a.id != id
    ensures Without(list, id) == list
  {
    if list != [] {
      assert list[0] in list;
      assert forall a :: a in list[1..] ==> a in list;
      WithoutAbsent(list[1..], id);
      assert list == [list[0]] + list[1..];
    }
  }

  /** Filtering twice by the same id is filtering once. */
  lemma WithoutIdempotent(list: seq<Analysis>, id: string)
    ensures Without(Without(list, id), id) == Without(list, id)
  {
    WithoutAbsent(Without(list, id), id);
  }

  /** Filtering by two ids gives the same list in either order. */
  lemma {:induction false} WithoutCommutes(list: seq<Analysis>, x: string, y: string)
    ensures Without(Without(list, x), y) == Without(Without(list, y), x)
  {
    if list != [] {
      var h, t := list[0], list[1..];
      WithoutCommutes(t, x, y);
      var hx := if h.id == x then [] else [h];
      var hy := if h.id == y then [] else [h];
      assert Without(list, x) == hx + Without(t, x);
      assert Without(list, y) == hy + Without(t, y);
      WithoutConcat(hx, Without(t, x), y);
      WithoutConcat(hy, Without(t, y), x);
      assert Without(hx, y) == Without(hy, x) by {
        if h.id != x && h.id != y {
          assert [h][1..] == [];
        }
      }
    }
  }

  // ---------------------------------------------------------------------
  // Severity badge colours

  const LowColor := "bg-emerald-50 text-emerald-800 border-emerald-200"
  const MediumColor := "bg-yellow-50 text-yellow-800 border-yellow-200"
  const HighColor := "bg-orange-50 text-orange-800 border-orange-200"
  const CriticalColor := "bg-red-50 text-red-800 border-red-200"
  const DefaultColor := "bg-slate-50 text-slate-800 border-slate-200"

  /** Total over all strings: the four severity texts have their own
      classes, anything else gets the slate default. */
  function SeverityColor(severity: string): (c: string)
    ensures SeverityFromName(severity).None? ==> c == DefaultColor
    ensures SeverityFromName(severity).Some? ==> c != DefaultColor
  {
    if severity == "Low" then LowColor
    else if severity == "Medium" then MediumColor
    else if severity == "High" then HighColor
    else if severity == "Critical" then CriticalColor
    else DefaultColor
  }

  /** Distinct severities get distinct classes. */
  lemma SeverityColorsDistinct(s1: Severity, s2: Severity)
    requires s1 != s2
    ensures SeverityColor(SeverityName(s1)) != SeverityColor(SeverityName(s2))
  {
  }

  // ---------------------------------------------------------------------
  // Page state and its transitions

  /** The read of the user's rows: data (possibly null), a returned error,
      or a rejected call, which nothing catches. */
  datatype FetchReply = Rows(data: Option<seq<Analysis>>) | FetchFailed | FetchThrew

  /** The delete's outcome. DeleteFailed stands both for a returned error
      and for a rejected call: either way the handler stops before it
      touches the page. */
  datatype DeleteReply = Deleted | DeleteFailed

  /** A delete scoped by record id and owner id. */
  datatype DeleteRequest = DeleteRequest(id: string, userId: string)

  datatype PageState = PageState(analyses: seq<Analysis>, loading: bool, selected: Option<Analysis>)

  const InitialPage := PageState([], true, None)

  /** What the fetch did: the owner id it filtered the read by, if it read. */
  datatype FetchRun = FetchRun(query: Option<string>, final: PageState)

  function FetchStep(p: PageState, user: Option<User>, reply: FetchReply): (r: FetchRun)
    ensures user.None? ==> r.query.None? && r.final == p
    ensures user.Some? ==> r.query == Some(user.value.id) && r.final.selected == p.selected
    // A rejected read ends the effect before the loading flag is cleared.
    ensures user.Some? && reply.FetchThrew? ==> r.final == p
    ensures user.Some? && !reply.FetchThrew? ==> !r.final.loading
    ensures user.Some? && reply.FetchFailed? ==> r.final.analyses == p.analyses
    ensures user.Some? && reply.Rows? ==> r.final.analyses == reply.data.GetOr([])
  {
    match user
    case None => FetchRun(None, p)
    case Some(u) =>
      if reply.FetchThrew? then FetchRun(Some(u.id), p)
      else
      var analyses := if reply.Rows? then reply.data.GetOr([]) else p.analyses;
      FetchRun(Some(u.id), p.(analyses := analyses, loading := false))
  }

  /** What the delete did: whether it asked for confirmation, the request it
      sent, and the page afterwards. */
  datatype DeleteRun = DeleteRun(confirmAsked: bool, request: Option<DeleteRequest>, final: PageState)

  function DeleteStep(p: PageState, id: string, user: Option<User>, confirmed: bool, reply: DeleteReply): (r: DeleteRun)
    ensures r.confirmAsked <==> user.Some?
    ensures r.request.Some? <==> user.Some? && confirmed
    ensures r.request.Some? ==> r.request.value == DeleteRequest(id, user.value.id)
    // Any guard that stops the delete leaves the page exactly as it was.
    ensures !(user.Some? && confirmed && reply.Deleted?) ==> r.final == p
    ensures user.Some? && confirmed && reply.Deleted? ==>
      && r.final.analyses == Without(p.analyses, id)
      && r.final.loading == p.loading
      && (r.final.selected.None? <==> p.selected.None? || p.selected.value.id == id)
      && (r.final.selected.Some? ==> r.final.selected == p.selected)
  {
    match user
    case None => DeleteRun(false, None, p)
    case Some(u) =>
      if !confirmed then DeleteRun(true, None, p)
      else if reply.DeleteFailed? then DeleteRun(true, Some(DeleteRequest(id, u.id)), p)
      else
        var selected := if p.selected.Some? && p.selected.value.id == id then None else p.selected;
        DeleteRun(true, Some(DeleteRequest(id, u.id)), p.(analyses := Without(p.analyses, id), selected := selected))
  }

  /** "View Details" selects the i-th listed record and nothing else. */
  function SelectStep(p: PageState, i: nat): (q: PageState)
    requires i < |p.analyses|
    ensures q.selected == Some(p.analyses[i]) && q.(selected := p.selected) == p
    ensures SelectionListed(q)
  {
    p.(selected := Some(p.analyses[i]))
  }

  /** Closing the detail card clears the selection and nothing else. */
  function CloseStep(p: PageState): (q: PageState)
    ensures q.selected.None? && q.(selected := p.selected) == p
    ensures SelectionListed(q)
  {
    p.(selected := None)
  }

  /** The selected record, if any, is one of the listed records. */
  predicate SelectionListed(p: PageState) {
    p.selected.Some? ==> p.selected.value in p.analyses
  }

  /** Every listed record belongs to the given owner. */
  predicate OwnedBy(p: PageState, owner: string) {
    forall a :: a in p.analyses ==> a.userId == owner
  }

  /** A delete never leaves the selection pointing at a record that is no
      longer listed. */
  lemma DeleteKeepsSelectionListed(p: PageState, id: string, user: Option<User>, confirmed: bool, reply: DeleteReply)
    requires SelectionListed(p)
    ensures SelectionListed(DeleteStep(p, id, user, confirmed, reply).final)
  {
  }

  /** If the server honours the owner filter, the list holds only the
      user's records, and deletes keep it that way. */
  lemma ListStaysOwned(p: PageState, u: User, rows: seq<Analysis>, id: string, confirmed: bool, reply: DeleteReply)
    requires forall a :: a in rows ==> a.userId == u.id
    ensures OwnedBy(FetchStep(p, Some(u), Rows(Some(rows))).final, u.id)
    ensures OwnedBy(p, u.id) ==> OwnedBy(DeleteStep(p, id, Some(u), confirmed, reply).final, u.id)
  {
  }

  /** Deleting an id that no listed record has leaves the list alone. */
  lemma DeleteAbsentKeepsList(p: PageState, id: string, u: User)
    requires forall a :: a in p.analyses ==> a.id != id
    ensures DeleteStep(p, id, Some(u), true, Deleted).final.analyses == p.analyses
  {
    WithoutAbsent(p.analyses, id);
  }

  /** A second successful delete of the same id changes nothing more. */
  lemma DeleteTwiceIsDeleteOnce(p: PageState, id: string, u: User)
    ensures var once := DeleteStep(p, id, Some(u), true, Deleted).final;
      DeleteStep(once, id, Some(u), true, Deleted).final == once
  {
    WithoutIdempotent(p.analyses, id);
  }

  /** Two successful deletes of different ids: neither id is left, the
      order of the rest is kept, and the order of the deletes is immaterial. */
  lemma TwoDeletes(p: PageState, x: string, y: string, u: User)
    ensures var one := DeleteStep(DeleteStep(p, x, Some(u), true, Deleted).final, y, Some(u), true, Deleted).final;
      var other := DeleteStep(DeleteStep(p, y, Some(u), true, Deleted).final, x, Some(u), true, Deleted).final;
      && one.analyses == other.analyses
      && (forall a :: a in one.analyses ==> a.id != x && a.id != y)
      && IsSubsequence(one.analyses, p.analyses)
  {
    WithoutCommutes(p.analyses, x, y);
    WithoutIsSubsequence(p.analyses, x);
    WithoutIsSubsequence(Without(p.analyses, x), y);
    SubsequenceTransitive(Without(Without(p.analyses, x), y), Without(p.analyses, x), p.analyses);
  }

  lemma {:induction false} SubsequenceTransitive(a: seq<Analysis>, b: seq<Analysis>, c: seq<Analysis>)
    requires IsSubsequence(a, b) && IsSubsequence(b, c)
    ensures IsSubsequence(a, c)
    decreases |c|
  {
    if a != [] && c != [] {
      assert b != [];
      if b[0] == c[0] {
        if a[0] == b[0] {
          SubsequenceTransitive(a[1..], b[1..], c[1..]);
        } else {
          SubsequenceTransitive(a, b[1..], c[1..]);
        }
      } else {
        SubsequenceTransitive(a, b, c[1..]);
        if a[0] == c[0] {
          SubsequenceDropFirst(a, c[1..]);
        }
      }
    }
  }

  lemma {:induction false} SubsequenceDropFirst(s: seq<Analysis>, t: seq<Analysis>)
    requires s != [] && IsSubsequence(s, t)
    ensures IsSubsequence(s[1..], t)
    decreases |t|, 1
  {
    if s[0] != t[0] {
      SubsequenceDropFirst(s, t[1..]);
    }
    SubsequenceWeaken(s[1..], t[1..], t[0]);
    assert t == [t[0]] + t[1..];
  }

  /** A subsequence of t is a subsequence of t with one more record in front. */
  lemma {:induction false} SubsequenceWeaken(s: seq<Analysis>, t: seq<Analysis>, x: Analysis)
    requires IsSubsequence(s, t)
    ensures IsSubsequence(s, [x] + t)
    decreases |t| + 1, 0
  {
    assert ([x] + t)[1..] == t;
    if s != [] && s[0] == x {
      SubsequenceDropFirst(s, t);
    }
  }

  // ---------------------------------------------------------------------
  // What the page renders

  datatype View = LoadingView | EmptyView | ListView(records: seq<Analysis>, detail: Option<Analysis>)

  /** Loading first, then the empty notice, then the list with the detail
      card for the selection. */
  function ViewOf(p: PageState): (v: View)
    ensures v.LoadingView? <==> p.loading
    ensures v.EmptyView? <==> !p.loading && |p.analyses| == 0
    ensures v.ListView? ==> v.records == p.analyses && v.detail == p.selected && |v.records| > 0
  {
    if p.loading then LoadingView
    else if |p.analyses| == 0 then EmptyView
    else ListView(p.analyses, p.selected)
  }

  /** A loading page stays on the loading indicator when the fetch has no
      user or its read is rejected. */
  lemma UnansweredFetchStaysLoading(p: PageState, user: Option<User>, reply: FetchReply)
    requires p.loading && (user.None? || reply.FetchThrew?)
    ensures ViewOf(FetchStep(p, user, reply).final) == LoadingView
  {
  }

  /** A failed first fetch renders exactly like an empty history. */
  lemma FetchErrorLooksEmpty(u: User)
    ensures ViewOf(FetchStep(InitialPage, Some(u), FetchFailed).final) == EmptyView
    ensures ViewOf(FetchStep(InitialPage, Some(u), Rows(Some([]))).final) == EmptyView
    ensures ViewOf(FetchStep(InitialPage, Some(u), Rows(None)).final) == EmptyView
  {
  }

  // ---------------------------------------------------------------------
  // The page component

  class Component {
    var analyses: seq<Analysis>
    var loading: bool
    var selectedAnalysis: Option<Analysis>

    function State(): PageState
      reads this
    {
      PageState(analyses, loading, selectedAnalysis)
    }

    constructor ()
      ensures State() == InitialPage
    {
      analyses, loading, selectedAnalysis := [], true, None;
    }

    /** The effect that reads the user's rows, newest first. */
    method FetchAnalyses(user: Option<User>, reply: FetchReply) returns (query: Option<string>)
      modifies this
      ensures var r := FetchStep(old(State()), user, reply);
        State() == r.final && query == r.query
    {
      query := None;
      if user.None? {
        return;
      }
      query := Some(user.value.id);
      match reply {
        case FetchThrew =>
          return;
        case FetchFailed =>
        case Rows(data) =>
          analyses := if data.Some? then data.value else [];
      }
      loading := false;
    }

    method HandleDelete(id: string, user: Option<User>, confirmed: bool, reply: DeleteReply)
      returns (confirmAsked: bool, request: Option<DeleteRequest>)
      modifies this
      ensures var r := DeleteStep(old(State()), id, user, confirmed, reply);
        State() == r.final && confirmAsked == r.confirmAsked && request == r.request
    {
      confirmAsked, request := false, None;
      if user.None? {
        return;
      }
      confirmAsked := true;
      if !confirmed {
        return;
      }
      request := Some(DeleteRequest(id, user.value.id));
      if reply.DeleteFailed? {
        return;
      }
      analyses := Without(analyses, id);
      if selectedAnalysis.Some? && selectedAnalysis.value.id == id {
        selectedAnalysis := None;
      }
    }

    /** "View Details" on the i-th listed record. */
    method Select(i: nat)
      requires i < |analyses|
      modifies this
      ensures State() == SelectStep(old(State()), i)
    {
      selectedAnalysis := Some(analyses[i]);
    }

    method CloseDetails()
      modifies this
      ensures State() == CloseStep(old(State()))
    {
      selectedAnalysis := None;
    }
  }
}
