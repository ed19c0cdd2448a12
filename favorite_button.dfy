/** The favorite toggle of one article (src/components/FavoriteButton.tsx): its
    initial load from two reads, the optimistic toggle, and the loading guard.
    The backend's reads and writes are parameters and results. */
module FavoriteButton {
  import opened Types

  /** The button's visible state: whether the viewer has favorited the article, and the count shown. */
  datatype Tally = Tally(favorited: bool, count: int)

  /** A write to the favorites table for this article, on behalf of one user. */
  datatype LedgerWrite = Insert(user: string) | Delete(user: string)

  const SignInPath: string := "/sign-in"

  function Max(a: int, b: int): int {
    if a >= b then a else b
  }

  /** The state loadFavorite sets: the article's count (0 when the count read gave
      none) and favorited exactly when a viewer is signed in and their row exists. */
  function Loaded(total: Option<nat>, viewer: Option<string>, viewerRow: bool): (t: Tally)
    ensures t.count >= 0
    ensures total.Some? ==> t.count == total.value
    ensures total.None? ==> t.count == 0
    ensures t.favorited <==> viewer.Some? && viewerRow
  {
    Tally(viewerRow && viewer.Some?, total.GetOr(0))
  }

  /** The write a toggle sends: delete the viewer's row if favorited, insert one otherwise. */
  function WriteFor(t: Tally, user: string): (w: LedgerWrite)
    ensures w.user == user
    ensures w.Delete? <==> t.favorited
  {
    if t.favorited then Delete(user) else Insert(user)
  }

  /** What a finished toggle does to the tally, whatever the write's outcome:
      the flag flips, the count goes up by one on favoriting and down by one,
      but not below zero, on unfavoriting. */
  function Flip(t: Tally): (r: Tally)
    ensures r.favorited == !t.favorited
    ensures t.count >= 0 ==> r.count >= 0
    ensures r.favorited ==> r.count == t.count + 1
    ensures !r.favorited && t.count >= 1 ==> r.count == t.count - 1
    ensures !r.favorited && t.count <= 0 ==> r.count == 0
  {
    if t.favorited then Tally(false, Max(t.count - 1, 0)) else Tally(true, t.count + 1)
  }

  /** Favoriting then unfavoriting returns to where it started. */
  lemma DoubleToggleFromUnfavorited(n: int)
    requires n >= 0
    ensures Flip(Flip(Tally(false, n))) == Tally(false, n)
  {
  }

  /** Unfavoriting then favoriting returns to where it started when the count was positive. */
  lemma DoubleToggleFromFavorited(n: int)
    requires n >= 1
    ensures Flip(Flip(Tally(true, n))) == Tally(true, n)
  {
  }

  /** With a favorited viewer and a count of 0 (the count read gave none), two toggles show 1:
      the clamp at zero loses the round trip. */
  lemma ClampBreaksDoubleToggle()
    ensures Flip(Flip(Tally(true, 0))) == Tally(true, 1)
  {
  }

  // ------------------------------------------------------- the favorites table

  /** The users whose favorite row for this article exists. */
  type Ledger = set<string>

  function Apply(ledger: Ledger, w: LedgerWrite): (r: Ledger)
    ensures w.Insert? ==> r == ledger + {w.user}
    ensures w.Delete? ==> r == ledger - {w.user}
  {
    match w
    case Insert(u) => ledger + {u}
    case Delete(u) => ledger - {u}
  }

  /** The tally shows the table as it is for `viewer`. */
  predicate Mirrors(t: Tally, ledger: Ledger, viewer: string) {
    t.favorited == (viewer in ledger) && t.count == |ledger|
  }

  /** Two reads of the same table load a tally that mirrors it. */
  lemma LoadMirrorsLedger(ledger: Ledger, viewer: string)
    ensures Mirrors(Loaded(Some(|ledger|), Some(viewer), viewer in ledger), ledger, viewer)
  {
  }

  /** An anonymous viewer is never shown as favorited, whatever the reads return. */
  lemma AnonymousNeverFavorited(total: Option<nat>, viewerRow: bool)
    ensures !Loaded(total, None, viewerRow).favorited
  {
  }

  /** When the write succeeds, the flipped tally mirrors the updated table. */
  lemma {:induction false} FlipMirrorsSuccessfulWrite(t: Tally, ledger: Ledger, viewer: string)
    requires Mirrors(t, ledger, viewer)
    ensures Mirrors(Flip(t), Apply(ledger, WriteFor(t, viewer)), viewer)
  {
    if t.favorited {
      assert ledger == (ledger - {viewer}) + {viewer};
      assert |ledger| == |ledger - {viewer}| + 1;
    } else {
      assert |ledger + {viewer}| == |ledger| + 1;
    }
  }

  /** There is no rollback: when the write fails and the table is unchanged, the
      flipped tally no longer mirrors it. */
  lemma FailedWriteDiverges(t: Tally, ledger: Ledger, viewer: string)
    requires Mirrors(t, ledger, viewer)
    ensures !Mirrors(Flip(t), ledger, viewer)
  {
  }

  // ------------------------------------------------------- the component

  /** One mounted button: the three state hooks, the write in flight between the
      click and its answer, and where the browser was sent. */
  class Button {
    var isFavorite: bool
    var count: int
    var loading: bool
    var pending: Option<LedgerWrite>
    var redirectedTo: Option<string>

    /** The count is never negative; a write is in flight only while loading,
        and it is the one the flag called for. */
    ghost predicate Valid()
      reads this
    {
      && count >= 0
      && (pending.Some? ==> loading && (pending.value.Delete? <==> isFavorite))
    }

    function State(): Tally
      reads this
    {
      Tally(isFavorite, count)
    }

    /** Mounted: not favorited, count 0, loading (the button is disabled). */
    constructor ()
      ensures Valid()
      ensures State() == Tally(false, 0) && loading && pending == None && redirectedTo == None
    {
      isFavorite, count, loading := false, 0, true;
      pending := None;
      redirectedTo := None;
    }

    /** loadFavorite, with the count read, the signed-in viewer and whether the
        viewer's row was found as parameters. Runs before any click can happen. */
    method Load(total: Option<nat>, viewer: Option<string>, viewerRow: bool)
      requires Valid() && pending == None
      modifies this`isFavorite, this`count, this`loading
      ensures Valid()
      ensures State() == Loaded(total, viewer, viewerRow) && !loading
    {
      count := total.GetOr(0);
      isFavorite := viewerRow && viewer.Some?;
      loading := false;
    }

    /** A click on the button. While loading the button is disabled and nothing
        happens; an anonymous viewer is sent to sign in and nothing else changes;
        otherwise loading starts and the write for the current flag is sent. */
    method Press(viewer: Option<string>) returns (write: Option<LedgerWrite>)
      requires Valid()
      modifies this`loading, this`pending, this`redirectedTo
      ensures Valid()
      ensures old(loading) ==> write == None && unchanged(this)
      ensures !old(loading) && viewer.None? ==>
        write == None && redirectedTo == Some(SignInPath) && unchanged(`loading, `pending)
      ensures !old(loading) && viewer.Some? ==>
        && write == Some(WriteFor(State(), viewer.value))
        && pending == write && loading && redirectedTo == old(redirectedTo)
    {
      if loading {
        return None;
      }
      if viewer.None? {
        redirectedTo := Some(SignInPath);
        return None;
      }
      loading := true;
      write := Some(if isFavorite then Delete(viewer.value) else Insert(viewer.value));
      pending := write;
    }

    /** The write answered (its outcome is not consulted): the flag flips, the
        count follows, and loading ends. */
    method Settle()
      requires Valid() && pending.Some?
      modifies this`isFavorite, this`count, this`loading, this`pending
      ensures Valid()
      ensures State() == Flip(old(State())) && !loading && pending == None
    {
      if pending.value.Delete? {
        isFavorite := false;
        count := Max(count - 1, 0);
      } else {
        isFavorite := true;
        count := count + 1;
      }
      loading := false;
      pending := None;
    }
  }

  /** A reader favorites an article showing 4, then unfavorites it: the button
      shows 5 and favorited, then 4 and not favorited. */
  method FavoriteThenUnfavorite() returns (first: Tally, second: Tally)
    ensures first == Tally(true, 5) && second == Tally(false, 4)
  {
    var b := new Button();
    b.Load(Some(4), Some("reader"), false);
    var w := b.Press(Some("reader"));
    b.Settle();
    first := b.State();
    w := b.Press(Some("reader"));
    b.Settle();
    second := b.State();
  }

  /** An anonymous click on a loaded button only redirects to sign in. */
  method AnonymousClick() returns (before: Tally, after: Tally, write: Option<LedgerWrite>, sentTo: Option<string>)
    ensures before == after == Tally(false, 7)
    ensures write == None && sentTo == Some(SignInPath)
  {
    var b := new Button();
    b.Load(Some(7), None, true);
    before := b.State();
    write := b.Press(None);
    after := b.State();
    sentTo := b.redirectedTo;
  }
}
