/**
 * The dashboard's like buttons: the set of post ids the user liked, where
 * a click on a post's heart toggles that post's membership.
 */
module Dashboard {
  import opened Text

  /** `toggleLike`'s new set: the id's membership flips, every other id's stays. */
  function Toggled(liked: set<String>, id: String): (r: set<String>)
    ensures id in r <==> id !in liked
    ensures forall x :: x != id ==> (x in r <==> x in liked)
  {
    if id in liked then liked - {id} else liked + {id}
  }

  /** Liking and unliking the same post gives back the set it started from. */
  lemma ToggleTwice(liked: set<String>, id: String)
    ensures Toggled(Toggled(liked, id), id) == liked
  {
    var once := Toggled(liked, id);
    var twice := Toggled(once, id);
    forall x ensures x in twice <==> x in liked {
      if x != id {
        assert x in twice <==> x in once;
      }
    }
  }

  /** Toggles of two different posts do not interfere: either order gives the same set. */
  lemma TogglesCommute(liked: set<String>, a: String, b: String)
    ensures Toggled(Toggled(liked, a), b) == Toggled(Toggled(liked, b), a)
  {
    var ab := Toggled(Toggled(liked, a), b);
    var ba := Toggled(Toggled(liked, b), a);
    forall x ensures x in ab <==> x in ba {
      if x != a && x != b {
        assert x in ab <==> x in liked;
      }
    }
  }

  class Page {
    var liked: set<String>

    constructor ()
      ensures liked == {}
    {
      liked := {};
    }

    /** `toggleLike`: a copy of the set is changed and stored back. */
    method ToggleLike(postId: String)
      modifies this
      ensures liked == Toggled(old(liked), postId)
    {
      var newLiked := liked;
      if postId in newLiked {
        newLiked := newLiked - {postId};
      } else {
        newLiked := newLiked + {postId};
      }
      liked := newLiked;
    }
  }
}
