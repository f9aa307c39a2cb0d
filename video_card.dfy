/** One video card: a local like toggle with its counter, a play flag the
    video area toggles, and the initial shown when the avatar is missing. */
module Card {

  /** The like counter and whether this viewer has liked the video. */
  datatype LikeState = LikeState(likes: int, isLiked: bool)

  /** The state a card starts in, from the count it was given. */
  function Initial(initialLikes: int): LikeState {
    LikeState(initialLikes, false)
  }

  /** The counter is the initial count plus one exactly while liked. */
  predicate Consistent(s: LikeState, initialLikes: int) {
    s.likes == initialLikes + (if s.isLiked then 1 else 0)
  }

  /** A press of the like button: liking adds one, unliking takes it back. */
  function Like(s: LikeState): (r: LikeState)
    ensures r.isLiked != s.isLiked
    ensures r.likes - s.likes == (if r.isLiked then 1 else -1)
    ensures forall initialLikes :: Consistent(s, initialLikes) ==> Consistent(r, initialLikes)
  {
    LikeState(if s.isLiked then s.likes - 1 else s.likes + 1, !s.isLiked)
  }

  /** The state after `n` presses. */
  function LikeTimes(s: LikeState, n: nat): LikeState
    decreases n
  {
    if n == 0 then s else Like(LikeTimes(s, n - 1))
  }

  /** Two presses cancel out. */
  lemma LikeTwiceRestores(s: LikeState)
    ensures Like(Like(s)) == s
  {
  }

  /** After any number of presses, the card is liked exactly when the number
      is odd, and the counter is the initial count plus one in that case. */
  lemma {:induction false} LikesAfterPresses(initialLikes: int, n: nat)
    ensures LikeTimes(Initial(initialLikes), n) == LikeState(initialLikes + n % 2, n % 2 == 1)
    ensures Consistent(LikeTimes(Initial(initialLikes), n), initialLikes)
    decreases n
  {
    if n > 0 {
      LikesAfterPresses(initialLikes, n - 1);
    }
  }

  function ToUpper(c: char): char {
    if 'a' <= c <= 'z' then (c as int - 'a' as int + 'A' as int) as char else c
  }

  /** The avatar fallback: the first letter of the username, upper-cased;
      nothing for an empty username. */
  function AvatarInitial(username: string): (r: string)
    ensures |r| <= 1
    ensures r == "" <==> username == ""
    ensures r != "" ==> r[0] == ToUpper(username[0]) && !('a' <= r[0] <= 'z')
  {
    if username == "" then "" else [ToUpper(username[0])]
  }

  /** The card component's own state; the count it started from stays fixed. */
  class VideoCard {
    const initialLikes: int
    var isPlaying: bool
    var likes: int
    var isLiked: bool

    function State(): LikeState
      reads this
    {
      LikeState(likes, isLiked)
    }

    predicate Valid()
      reads this
    {
      Consistent(State(), initialLikes)
    }

    /** A fresh card plays, shows the given count and is not liked. */
    constructor (initialLikes: int)
      ensures this.initialLikes == initialLikes
      ensures isPlaying && State() == Initial(initialLikes) && Valid()
    {
      this.initialLikes := initialLikes;
      isPlaying := true;
      likes := initialLikes;
      isLiked := false;
    }

    /** The like button; its click does not reach the video area, so the
        play flag is untouched. */
    method PressLike()
      requires Valid()
      modifies this
      ensures Valid() && State() == Like(old(State()))
      ensures isPlaying == old(isPlaying)
    {
      likes := if isLiked then likes - 1 else likes + 1;
      isLiked := !isLiked;
    }

    /** A click on the video area flips the play flag and nothing else. */
    method ClickVideoArea()
      requires Valid()
      modifies this
      ensures Valid() && State() == old(State())
      ensures isPlaying == !old(isPlaying)
    {
      isPlaying := !isPlaying;
    }
  }
}
