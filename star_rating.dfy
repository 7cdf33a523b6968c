/**
 * The `StarRating` widget: five clickable stars with a committed rating
 * (`currentRating`) and a transient hover preview (`hoverRating`). A click
 * commits a star, optionally saves it under `rating-<gameId>` and notifies
 * the parent; on mount the widget first loads the saved rating and then
 * syncs to its `initialRating` prop.
 */
module StarRatingWidget {
  import opened Wrappers
  import JsNumber
  import opened BrowserStorage

  /** The value of one star; the widget renders exactly the stars 1 to 5. */
  type Star = v: int | 1 <= v <= 5 witness 1

  /** A hover value: 0 (no hover) or the star under the mouse. */
  type HoverValue = v: int | 0 <= v <= 5

  /** The five stars, in rendering order. */
  const Stars: seq<Star> := [1, 2, 3, 4, 5]

  /**
   * A JavaScript number as far as the widget sees one: an integer, or `NaN`,
   * which is what `parseInt` yields for a stored string without digits.
   */
  datatype Number = Num(value: int) | NaN

  /** `parseInt`'s result as a number. */
  function ToNumber(parsed: Option<int>): Number {
    match parsed
    case Some(v) => Num(v)
    case None => NaN
  }

  /** `hoverRating || currentRating`: the value the stars show. */
  function Displayed(hover: HoverValue, current: Number): Number {
    if hover != 0 then Num(hover) else current
  }

  /** The fill rule: star `position` is lit iff the displayed value is at least `position`. */
  predicate Filled(hover: HoverValue, current: Number, position: Star) {
    match Displayed(hover, current)
    case Num(v) => v >= position
    case NaN => false
  }

  /** The lit/unlit state of all five stars. */
  function FillPattern(hover: HoverValue, current: Number): (pattern: seq<bool>)
    ensures |pattern| == 5
    ensures forall i :: 0 <= i < 5 ==> pattern[i] == Filled(hover, current, Stars[i])
  {
    seq(5, i requires 0 <= i < 5 => Filled(hover, current, Stars[i]))
  }

  /**
   * A non-zero hover replaces the committed value outright, it is not the
   * larger of the two: every star lights iff the hover reaches it, whatever
   * is committed.
   */
  lemma HoverOverridesCommitted(hover: HoverValue, current: Number, position: Star)
    requires hover != 0
    ensures Filled(hover, current, position) <==> hover >= position
  {
  }

  /**
   * Hovering a star below the committed value shows fewer stars: the star of
   * the committed value goes dark while the mouse is there.
   */
  lemma HoverBelowCommittedShowsFewer(hover: HoverValue, committed: Star)
    requires 0 < hover < committed
    ensures Filled(0, Num(committed), committed)
    ensures !Filled(hover, Num(committed), committed)
    ensures FillPattern(hover, Num(committed)) != FillPattern(0, Num(committed))
  {
    var i := committed - 1;
    assert Stars[i] == committed;
    assert FillPattern(0, Num(committed))[i] != FillPattern(hover, Num(committed))[i];
  }

  /** The lit stars always form a prefix of the row: none lit after an unlit one. */
  lemma LitStarsArePrefix(hover: HoverValue, current: Number, p: Star, q: Star)
    requires p <= q && Filled(hover, current, q)
    ensures Filled(hover, current, p)
  {
  }

  /** With no hover the display is the committed value. */
  lemma NoHoverShowsCommitted(current: Number, position: Star)
    ensures Filled(0, current, position) <==> (current.Num? && current.value >= position)
  {
  }

  /**
   * What the mount-time load sets `currentRating` to, if anything: only when
   * a non-empty `gameId` is given and a non-empty string is stored under its
   * key, and then the `parseInt` of that string.
   */
  function LoadedRating(items: map<string, string>, gameId: Option<string>): (r: Option<Number>)
    ensures r.Some? <==>
      gameId.Some? && gameId.value != "" && RatingKey(gameId.value) in items
      && items[RatingKey(gameId.value)] != ""
    ensures r.Some? ==> r.value == ToNumber(JsNumber.ParseInt(items[RatingKey(gameId.value)]))
  {
    if gameId.Some? && gameId.value != "" then
      var key := RatingKey(gameId.value);
      if key in items && items[key] != "" then Some(ToNumber(JsNumber.ParseInt(items[key]))) else None
    else None
  }

  /** A rating saved by a click is what a later load of that game reads back. */
  lemma SavedRatingLoadsBack(items: map<string, string>, gameId: string, v: Star)
    requires gameId != ""
    ensures LoadedRating(items[RatingKey(gameId) := JsNumber.IntToString(v)], Some(gameId)) == Some(Num(v))
  {
    JsNumber.ParseIntToString(v);
  }

  /** Saving a rating for one game leaves every other game's load unchanged. */
  lemma SavingIsPerGame(items: map<string, string>, gameId: string, other: string, v: Star)
    requires other != gameId
    ensures LoadedRating(items[RatingKey(gameId) := JsNumber.IntToString(v)], Some(other))
         == LoadedRating(items, Some(other))
  {
    RatingKeyInjective(gameId, other);
  }

  class StarRating {
    /** The `initialRating` prop, as last rendered (default 0). */
    var initialRating: int
    /** The `gameId` prop, as last rendered. */
    var gameId: Option<string>
    /** Whether the parent passed an `onRatingChange` callback. */
    const hasCallback: bool
    var currentRating: Number
    var hoverRating: HoverValue

    /** The first render: the `useState` initial values, before any effect. */
    constructor (initialRating: int, hasCallback: bool, gameId: Option<string>)
      ensures this.initialRating == initialRating && this.hasCallback == hasCallback
      ensures this.gameId == gameId
      ensures currentRating == Num(initialRating) && hoverRating == 0
    {
      this.initialRating := initialRating;
      this.hasCallback := hasCallback;
      this.gameId := gameId;
      currentRating := Num(initialRating);
      hoverRating := 0;
    }

    /** JavaScript truthiness of the `gameId` prop: given and non-empty. */
    predicate HasGameId()
      reads this
    {
      gameId.Some? && gameId.value != ""
    }

    /** Whether star `position` is rendered lit in the current state. */
    predicate IsFilled(position: Star)
      reads this
    {
      Filled(hoverRating, currentRating, position)
    }

    /** The effect on `[gameId]`: load the saved rating, if there is one. */
    method LoadStoredRating(store: Storage)
      modifies this`currentRating
      ensures currentRating == LoadedRating(store.items, gameId).GetOr(old(currentRating))
    {
      if HasGameId() {
        var stored := store.GetItem(RatingKey(gameId.value));
        if stored.Some? && stored.value != "" {
          currentRating := ToNumber(JsNumber.ParseInt(stored.value));
        }
      }
    }

    /** The effect on `[initialRating]`: commit the prop's value. */
    method SyncInitialRating()
      modifies this`currentRating
      ensures currentRating == Num(initialRating)
    {
      currentRating := Num(initialRating);
    }

    /**
     * Mount: both effects run once, in declaration order. The sync runs
     * last, so after mount the committed value is `initialRating` whatever
     * was saved in storage.
     */
    method Mount(store: Storage)
      modifies this`currentRating
      ensures currentRating == Num(initialRating)
    {
      LoadStoredRating(store);
      SyncInitialRating();
    }

    /** A re-render with a new `initialRating`: its effect runs only if the value changed. */
    method ReceiveInitialRating(rating: int)
      modifies this`initialRating, this`currentRating
      ensures initialRating == rating
      ensures currentRating == if rating != old(initialRating) then Num(rating) else old(currentRating)
    {
      if rating != initialRating {
        initialRating := rating;
        SyncInitialRating();
      }
    }

    /** A re-render with a new `gameId`: the load effect runs again only if it changed. */
    method ReceiveGameId(id: Option<string>, store: Storage)
      modifies this`gameId, this`currentRating
      ensures gameId == id
      ensures currentRating ==
        if id != old(gameId) then LoadedRating(store.items, id).GetOr(old(currentRating))
        else old(currentRating)
    {
      if id != gameId {
        gameId := id;
        LoadStoredRating(store);
      }
    }

    /**
     * `handleClick(value)`: commit the star, clear the hover, save the value
     * under the game's key when there is a game, and call `onRatingChange`
     * with it; `notified` lists the callback's calls.
     */
    method Click(value: Star, store: Storage) returns (notified: seq<int>)
      modifies this`currentRating, this`hoverRating, store
      ensures currentRating == Num(value) && hoverRating == 0
      ensures store.items ==
        if HasGameId() then old(store.items)[RatingKey(gameId.value) := JsNumber.IntToString(value)]
        else old(store.items)
      ensures notified == if hasCallback then [value] else []
    {
      currentRating := Num(value);
      hoverRating := 0;
      if HasGameId() {
        store.SetItem(RatingKey(gameId.value), JsNumber.IntToString(value));
      }
      notified := if hasCallback then [value] else [];
    }

    /** `onMouseEnter` of star `position`: preview it. */
    method MouseEnter(position: Star)
      modifies this`hoverRating
      ensures hoverRating == position
    {
      hoverRating := position;
    }

    /** `onMouseLeave` of any star: drop the preview. */
    method MouseLeave()
      modifies this`hoverRating
      ensures hoverRating == 0
      ensures forall p: Star :: IsFilled(p) <==> Filled(0, currentRating, p)
    {
      hoverRating := 0;
    }
  }

  /**
   * A widget given `initialRating = 3` and hovered on star 5, then left
   * without a click, shows three lit stars again and still holds 3.
   */
  method HoverThenLeave(store: Storage) returns (lit: seq<bool>, committed: Number)
    ensures lit == [true, true, true, false, false]
    ensures committed == Num(3)
  {
    var widget := new StarRating(3, false, None);
    widget.Mount(store);
    widget.MouseEnter(5);
    widget.MouseLeave();
    lit := FillPattern(widget.hoverRating, widget.currentRating);
    committed := widget.currentRating;
  }

  /**
   * Clicking a star on a widget with a game saves it: a fresh widget for the
   * same game loads that star in its load effect (`loaded`), and the
   * `initialRating` sync that follows in the same mount replaces it with the
   * prop's value (`remounted`).
   */
  method ClickThenReload(store: Storage, gameId: string, value: Star) returns (loaded: Number, remounted: Number)
    requires gameId != ""
    modifies store
    ensures loaded == Num(value)
    ensures remounted == Num(0)
    ensures store.GetItem(RatingKey(gameId)) == Some(JsNumber.IntToString(value))
  {
    var widget := new StarRating(0, true, Some(gameId));
    widget.Mount(store);
    var notified := widget.Click(value, store);
    var second := new StarRating(0, false, Some(gameId));
    second.LoadStoredRating(store);
    SavedRatingLoadsBack(old(store.items), gameId, value);
    loaded := second.currentRating;
    second.SyncInitialRating();
    remounted := second.currentRating;
  }
}
