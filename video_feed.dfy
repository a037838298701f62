/** One video in the short-video feed: its like button and local like count. */
module VideoFeed {

  /** The button's state: whether it is liked and the count shown. */
  datatype LikeState = LikeState(isLiked: bool, localLikes: int)

  /** The state a video opens with: not liked, showing the server's count. */
  function InitialLikeState(likes: int): LikeState
  {
    LikeState(false, likes)
  }

  /** `handleLike`: both updates are decided by the flag before the press. */
  function AfterLike(s: LikeState): LikeState
  {
    LikeState(!s.isLiked, if s.isLiked then s.localLikes - 1 else s.localLikes + 1)
  }

  /** The shown count is the server's count plus one exactly while liked. */
  ghost predicate Consistent(s: LikeState, likes: int)
  {
    s.localLikes == likes + (if s.isLiked then 1 else 0)
  }

  function Presses(s: LikeState, n: nat): LikeState
    decreases n
  {
    if n == 0 then s else Presses(AfterLike(s), n - 1)
  }

  lemma LikeStep(s: LikeState, likes: int)
    requires Consistent(s, likes)
    ensures Consistent(AfterLike(s), likes)
    ensures AfterLike(s).isLiked == !s.isLiked
    ensures AfterLike(AfterLike(s)) == s
  {
  }

  /** After any number of presses the count matches the flag, and the flag is the press parity. */
  lemma {:induction false} PressesConsistent(likes: int, n: nat)
    ensures Consistent(Presses(InitialLikeState(likes), n), likes)
    ensures Presses(InitialLikeState(likes), n).isLiked <==> n % 2 == 1
  {
    PressesFrom(InitialLikeState(likes), likes, n);
  }

  lemma {:induction false} PressesFrom(s: LikeState, likes: int, n: nat)
    requires Consistent(s, likes)
    ensures Consistent(Presses(s, n), likes)
    ensures Presses(s, n).isLiked <==> (if n % 2 == 0 then s.isLiked else !s.isLiked)
    decreases n
  {
    if n > 0 {
      LikeStep(s, likes);
      PressesFrom(AfterLike(s), likes, n - 1);
    }
  }

  class VideoItem {
    const likes: int
    var isLiked: bool
    var localLikes: int

    ghost predicate Valid()
      reads this
    {
      Consistent(LikeState(isLiked, localLikes), likes)
    }

    constructor (likes: int)
      ensures Valid()
      ensures this.likes == likes && LikeState(isLiked, localLikes) == InitialLikeState(likes)
    {
      this.likes := likes;
      isLiked := false;
      localLikes := likes;
    }

    method HandleLike()
      requires Valid()
      modifies this
      ensures Valid()
      ensures LikeState(isLiked, localLikes) == AfterLike(old(LikeState(isLiked, localLikes)))
    {
      var wasLiked := isLiked;
      isLiked := !wasLiked;
      localLikes := if wasLiked then localLikes - 1 else localLikes + 1;
    }
  }
}
