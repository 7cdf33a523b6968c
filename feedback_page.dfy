/**
 * The feedback page: a list of submitted `Feedback` entries kept in storage
 * under `feedbacks`, and a form (`nome`, `mensagem`, and a `rating` set by
 * an embedded star widget) whose submission appends one entry.
 */
module FeedbackPage {
  import opened Wrappers
  import opened JsString
  import opened BrowserStorage
  import opened FeedbackCodec
  import opened StarRatingWidget

  /** An entry as `handleSubmit` builds it: trimmed, named, rated 1 to 5. */
  predicate EntryOk(f: Feedback) {
    f.nome != "" && IsTrimmed(f.nome) && IsTrimmed(f.mensagem) && 1 <= f.rating <= 5
  }

  /**
   * The validation and construction step of `handleSubmit`: `None` when the
   * trimmed name is empty or no star is chosen (the alert path), otherwise
   * the new entry stamped with `data`.
   */
  function NewFeedback(nome: string, mensagem: string, rating: int, data: string): (r: Option<Feedback>)
    ensures r.None? <==> IsBlank(nome) || rating == 0
    ensures r.Some? ==> r.value == Feedback(Trim(nome), Trim(mensagem), rating, data)
    ensures r.Some? ==> r.value.nome != "" && r.value.rating != 0
  {
    TrimEmptyIffBlank(nome);
    if Trim(nome) == "" || rating == 0 then None
    else Some(Feedback(Trim(nome), Trim(mensagem), rating, data))
  }

  /** A rating from the widget yields a well-formed entry once the name is not blank. */
  lemma NewFeedbackIsOk(nome: string, mensagem: string, rating: int, data: string)
    requires !IsBlank(nome) && 1 <= rating <= 5
    ensures NewFeedback(nome, mensagem, rating, data).Some?
    ensures EntryOk(NewFeedback(nome, mensagem, rating, data).value)
  {
    TrimHasNoOuterWhitespace(nome);
    TrimHasNoOuterWhitespace(mensagem);
  }

  /** What the mount-time load effect finds in storage. */
  datatype LoadResult = NothingStored | Loaded(list: seq<Feedback>) | ParseError

  /**
   * `if (storedFeedbacks) setFeedbacks(JSON.parse(storedFeedbacks))`: a
   * missing or empty string loads nothing; otherwise the parse, which may
   * fail where `JSON.parse` throws.
   */
  function LoadFeedbacks(stored: Option<string>): (r: LoadResult)
    ensures r.NothingStored? <==> stored.None? || stored.value == ""
    ensures r.Loaded? ==> Deserialize(stored.value) == Some(r.list)
    ensures r.ParseError? <==> stored.Some? && stored.value != "" && Deserialize(stored.value).None?
  {
    if stored.None? || stored.value == "" then NothingStored
    else match Deserialize(stored.value)
      case Some(list) => Loaded(list)
      case None => ParseError
  }

  /** The list the load effect leaves: the parsed list, or the initial empty one. */
  function MountedList(stored: Option<string>): seq<Feedback> {
    match LoadFeedbacks(stored)
    case Loaded(list) => list
    case _ => []
  }

  /** A list the page saved is exactly the list a later mount loads. */
  lemma SavedListLoadsBack(list: seq<Feedback>)
    ensures LoadFeedbacks(Some(Serialize(list))) == Loaded(list)
  {
    DeserializeSerialize(list);
  }

  /** `renderStars(count)`: `None` where `String.prototype.repeat` throws a RangeError. */
  function RenderStars(count: int): (r: Option<string>)
    ensures r.Some? <==> 0 <= count <= 5
    ensures r.Some? ==> |r.value| == 5
    ensures r.Some? ==> forall i :: 0 <= i < 5 ==> r.value[i] == if i < count then '★' else '☆'
  {
    if 0 <= count <= 5 then Some(Repeat('★', count) + Repeat('☆', 5 - count)) else None
  }

  class FeedbackPage {
    var feedbacks: seq<Feedback>
    var nome: string
    var mensagem: string
    var rating: int
    /** The form's `StarRating`, rendered with `initialRating={rating}` and no `gameId`. */
    const widget: StarRating
    const store: Storage
    /** How many entries came from storage at mount; the rest were submitted here. */
    ghost var loadedCount: nat

    /**
     * The form's rating is 0 or a star the widget reported, and the widget
     * shows it; every entry submitted on this page is well formed.
     */
    ghost predicate Valid()
      reads this, widget
    {
      && 0 <= rating <= 5
      && widget.initialRating == rating && widget.currentRating == Num(rating)
      && widget.gameId == None && widget.hasCallback
      && loadedCount <= |feedbacks|
      && forall i :: loadedCount <= i < |feedbacks| ==> EntryOk(feedbacks[i])
    }

    /** The first render: the `useState` initial values, before any effect. */
    constructor (store: Storage)
      ensures Valid() && this.store == store && fresh(widget)
      ensures widget.hoverRating == 0
      ensures feedbacks == [] && nome == "" && mensagem == "" && rating == 0
    {
      feedbacks, nome, mensagem, rating := [], "", "", 0;
      widget := new StarRating(0, true, None);
      this.store := store;
      loadedCount := 0;
    }

    /** The `[feedbacks]` effect: write the whole list under `feedbacks`. */
    method Persist()
      modifies store
      ensures store.items == old(store.items)[FeedbacksKey := Serialize(feedbacks)]
    {
      store.SetItem(FeedbacksKey, Serialize(feedbacks));
    }

    /**
     * The page's load effect: parse whatever `feedbacks` holds. `threw` is
     * the case where `JSON.parse` throws, which leaves the list empty.
     */
    method LoadEffect() returns (threw: bool)
      requires Valid() && feedbacks == [] && loadedCount == 0
      modifies this`feedbacks, this`loadedCount
      ensures Valid()
      ensures threw <==> LoadFeedbacks(store.GetItem(FeedbacksKey)).ParseError?
      ensures feedbacks == MountedList(store.GetItem(FeedbacksKey))
    {
      var loaded := LoadFeedbacks(store.GetItem(FeedbacksKey));
      threw := loaded.ParseError?;
      if loaded.Loaded? {
        feedbacks := loaded.list;
        loadedCount := |feedbacks|;
      }
    }

    /**
     * Mount: the widget's own effects, then the page's load effect, then the
     * persist effect (first with the initial empty list, and once more with
     * the loaded list after the re-render). When `JSON.parse` throws
     * (`threw`), the effects after it do not run and storage is untouched.
     */
    method Mount() returns (threw: bool)
      requires Valid() && feedbacks == [] && loadedCount == 0
      modifies this, widget`currentRating, store
      ensures Valid()
      ensures nome == old(nome) && mensagem == old(mensagem) && rating == old(rating)
      ensures threw <==> LoadFeedbacks(old(store.GetItem(FeedbacksKey))).ParseError?
      ensures threw ==> feedbacks == [] && store.items == old(store.items)
      ensures !threw ==> store.items == old(store.items)[FeedbacksKey := Serialize(feedbacks)]
      ensures feedbacks == MountedList(old(store.GetItem(FeedbacksKey)))
    {
      widget.Mount(store);
      var initial := feedbacks;
      threw := LoadEffect();
      if threw {
        return;
      }
      store.SetItem(FeedbacksKey, Serialize(initial));
      Persist();
    }

    /** The name input's `onChange`. */
    method SetNome(value: string)
      modifies this`nome
      ensures nome == value
    {
      nome := value;
    }

    /** The message textarea's `onChange`. */
    method SetMensagem(value: string)
      modifies this`mensagem
      ensures mensagem == value
    {
      mensagem := value;
    }

    /**
     * `handleRatingChange`: the widget's callback; it only ever reports a
     * star. On its own it leaves the widget's `initialRating` behind the new
     * `rating`, so `Valid()` holds again only after the re-render that
     * `ClickStar` completes.
     */
    method HandleRatingChange(newRating: Star)
      modifies this`rating
      ensures rating == newRating
    {
      rating := newRating;
    }

    /**
     * A click on star `value` of the form's widget: the widget commits it
     * and calls back, the page stores it in `rating`, and the re-render
     * passes it back to the widget as `initialRating`.
     */
    method ClickStar(value: Star)
      requires Valid()
      modifies this`rating, widget, store
      ensures Valid()
      ensures rating == value
      ensures store.items == old(store.items)
      ensures widget.hoverRating == 0
    {
      var notified := widget.Click(value, store);
      if notified != [] {
        HandleRatingChange(notified[0]);
      }
      widget.ReceiveInitialRating(rating);
    }

    /**
     * `handleSubmit(now)`: reject a blank name or a zero rating and change
     * nothing; otherwise append the trimmed entry, persist the list, clear
     * the form and pass the cleared rating to the widget.
     */
    method HandleSubmit(now: string) returns (accepted: bool)
      requires Valid()
      modifies this`feedbacks, this`nome, this`mensagem, this`rating, widget`initialRating, widget`currentRating, store
      ensures Valid()
      ensures accepted <==> !IsBlank(old(nome)) && old(rating) != 0
      ensures !accepted ==>
        feedbacks == old(feedbacks) && nome == old(nome) && mensagem == old(mensagem)
        && rating == old(rating) && store.items == old(store.items)
        && widget.initialRating == old(widget.initialRating) && widget.currentRating == old(widget.currentRating)
      ensures accepted ==>
        && |feedbacks| == |old(feedbacks)| + 1
        && feedbacks[..|old(feedbacks)|] == old(feedbacks)
        && feedbacks[|old(feedbacks)|] == Feedback(Trim(old(nome)), Trim(old(mensagem)), old(rating), now)
        && EntryOk(feedbacks[|old(feedbacks)|])
        && nome == "" && mensagem == "" && rating == 0
        && store.items == old(store.items)[FeedbacksKey := Serialize(feedbacks)]
    {
      var entry := NewFeedback(nome, mensagem, rating, now);
      if entry.None? {
        accepted := false;
        return;
      }
      accepted := true;
      NewFeedbackIsOk(nome, mensagem, rating, now);
      ghost var before := feedbacks;
      feedbacks := feedbacks + [entry.value];
      forall i | loadedCount <= i < |feedbacks| ensures EntryOk(feedbacks[i]) {
        if i < |before| {
          assert feedbacks[i] == before[i];
        }
      }
      nome, mensagem, rating := "", "", 0;
      Persist();
      widget.ReceiveInitialRating(rating);
    }
  }

  /**
   * Submitting name "Ana", rating 4 and an empty message on a page with an
   * empty store appends exactly that entry, saves it, and clears the form.
   */
  method SubmitScenario(now: string) returns (list: seq<Feedback>, saved: Option<string>, formNome: string, formRating: int)
    ensures list == [Feedback("Ana", "", 4, now)]
    ensures saved == Some(Serialize(list))
    ensures formNome == "" && formRating == 0
  {
    var store := new Storage(map[]);
    var page := new FeedbackPage(store);
    var threw := page.Mount();
    page.SetNome("Ana");
    page.ClickStar(4);
    assert !IsBlank("Ana") by { assert !IsWhitespace("Ana"[0]); }
    var accepted := page.HandleSubmit(now);
    assert Trim("Ana") == "Ana" by {
      assert TrimStart("Ana") == "Ana";
      assert TrimEnd("Ana") == "Ana";
    }
    assert Trim("") == "";
    list := page.feedbacks;
    saved := store.GetItem(FeedbacksKey);
    formNome, formRating := page.nome, page.rating;
  }
}
