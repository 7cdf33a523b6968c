/**
 * The browser's `localStorage`: one string-to-string map per origin, shared
 * by every page, and the two key layouts the application writes into it.
 */
module BrowserStorage {
  import opened Wrappers

  class Storage {
    var items: map<string, string>

    constructor (initial: map<string, string>)
      ensures items == initial
    {
      items := initial;
    }

    /** `localStorage.getItem(key)`: `None` stands for `null`, a missing key. */
    function GetItem(key: string): (r: Option<string>)
      reads this
      ensures r.Some? <==> key in items
      ensures r.Some? ==> r.value == items[key]
    {
      if key in items then Some(items[key]) else None
    }

    /** `localStorage.setItem(key, value)`: overwrites, touches no other key. */
    method SetItem(key: string, value: string)
      modifies this
      ensures items == old(items)[key := value]
      ensures GetItem(key) == Some(value)
      ensures forall k :: k != key ==> GetItem(k) == old(GetItem(k))
    {
      items := items[key := value];
    }
  }

  /** Key under which the star widget keeps the rating of one game. */
  function RatingKey(gameId: string): string {
    "rating-" + gameId
  }

  /** Key under which the feedback page keeps its whole list. */
  const FeedbacksKey: string := "feedbacks"

  /** Different games never share a rating key. */
  lemma RatingKeyInjective(a: string, b: string)
    ensures RatingKey(a) == RatingKey(b) <==> a == b
  {
    if RatingKey(a) == RatingKey(b) {
      assert a == RatingKey(a)[7..] == RatingKey(b)[7..] == b;
    }
  }

  /** No rating key collides with the feedback list's key. */
  lemma RatingKeyIsNotFeedbacksKey(gameId: string)
    ensures RatingKey(gameId) != FeedbacksKey
  {
    assert RatingKey(gameId)[0] == 'r' != 'f' == FeedbacksKey[0];
  }
}
