/** The feed: the fetched videos, one cursor into them, the up and down
    steps that move it, and the card shown for the row under it. */
module Feed {
  import opened Nullable

  /** The uploader's columns joined onto each video row. */
  datatype Uploader = Uploader(username: Option<string>, avatarUrl: Option<string>)

  /** A video row as the feed query returns it, newest first. */
  datatype VideoRow = VideoRow(
    id: string,
    title: string,
    description: Option<string>,
    videoUrl: string,
    thumbnailUrl: Option<string>,
    uploader: Option<Uploader>)

  /** The properties handed to the card for the row under the cursor. */
  datatype CardProps = CardProps(
    key: string,
    username: string,
    description: string,
    likes: int,
    videoUrl: string,
    avatarUrl: Option<string>,
    comments: int,
    thumbnail: string)

  datatype View = Loading | Showing(card: CardProps)

  /** What the fetch delivered: rows (possibly null), or an error. */
  datatype Fetch = Fetched(data: Option<seq<VideoRow>>) | FetchFailed

  const Anonymous := "Anonymous"
  const DefaultThumbnail := "https://images.unsplash.com/photo-1472214103451-9374bd1c798e"

  function Max(a: int, b: int): int { if a < b then b else a }
  function Min(a: int, b: int): int { if a < b then a else b }

  /** One step up: towards the first row, never past it. */
  function Up(i: int): (j: int)
    ensures 0 <= i ==> j == Max(i - 1, 0)
  {
    if i > 0 then i - 1 else i
  }

  /** One step down: towards the last row, never past it. */
  function Down(i: int, len: int): (j: int)
    ensures 0 <= i < len ==> j == Min(i + 1, len - 1)
    ensures len == 0 && i == 0 ==> j == 0
  {
    if i < len - 1 then i + 1 else i
  }

  datatype Nav = NavUp | NavDown

  /** The keys the feed listens to; any other key is ignored. */
  function KeyNav(key: string): (n: Option<Nav>)
    ensures n == Some(NavUp) <==> key == "ArrowUp"
    ensures n == Some(NavDown) <==> key == "ArrowDown"
  {
    if key == "ArrowUp" then Some(NavUp)
    else if key == "ArrowDown" then Some(NavDown)
    else None
  }

  function Move(n: Nav, i: int, len: int): int {
    match n
    case NavUp => Up(i)
    case NavDown => Down(i, len)
  }

  /** A key press: the arrow keys take the same step as the two buttons. */
  function KeyStep(key: string, i: int, len: int): (j: int)
    ensures key == "ArrowUp" ==> j == Up(i)
    ensures key == "ArrowDown" ==> j == Down(i, len)
    ensures key != "ArrowUp" && key != "ArrowDown" ==> j == i
  {
    match KeyNav(key)
    case Some(n) => Move(n, i, len)
    case None => i
  }

  /** The cursor after a sequence of steps. */
  function Walk(navs: seq<Nav>, i: int, len: int): int
    decreases |navs|
  {
    if navs == [] then i else Walk(navs[1..], Move(navs[0], i, len), len)
  }

  /** A cursor the feed can hold: a row index, or 0 while there are no rows. */
  predicate InRange(i: int, len: int) {
    0 <= i && (i < len || i == 0)
  }

  /** No sequence of steps takes the cursor out of range; on an empty list
      it stays at 0. */
  lemma {:induction false} WalkStaysInRange(navs: seq<Nav>, i: int, len: int)
    requires InRange(i, len)
    ensures InRange(Walk(navs, i, len), len)
    ensures len == 0 ==> Walk(navs, i, len) == 0
    decreases |navs|
  {
    if navs != [] {
      WalkStaysInRange(navs[1..], Move(navs[0], i, len), len);
    }
  }

  /** The card for a row: counts always zero, a missing or empty username
      shown as "Anonymous", a missing description as "", a missing
      thumbnail as the default picture. */
  function CardFor(row: VideoRow): (c: CardProps)
    ensures c.key == row.id && c.videoUrl == row.videoUrl
    ensures c.likes == 0 && c.comments == 0
    ensures c.username != "" && c.thumbnail != ""
    ensures c.username == Anonymous <==>
      row.uploader.None? || OrElse(row.uploader.value.username, Anonymous) == Anonymous
    ensures (row.uploader.Some? && row.uploader.value.username.Some? &&
             row.uploader.value.username.value != "") ==> c.username == row.uploader.value.username.value
    ensures c.description == "" <==> row.description.None? || row.description.value == ""
    ensures c.thumbnail == DefaultThumbnail <==>
      row.thumbnailUrl.None? || row.thumbnailUrl.value in {"", DefaultThumbnail}
    ensures row.description.Some? && row.description.value != "" ==> c.description == row.description.value
    ensures row.thumbnailUrl.Some? && row.thumbnailUrl.value != "" ==> c.thumbnail == row.thumbnailUrl.value
    ensures c.avatarUrl == if row.uploader.Some? then row.uploader.value.avatarUrl else None
  {
    CardProps(
      row.id,
      if row.uploader.Some? then OrElse(row.uploader.value.username, Anonymous) else Anonymous,
      OrElse(row.description, ""),
      0,
      row.videoUrl,
      if row.uploader.Some? then row.uploader.value.avatarUrl else None,
      0,
      OrElse(row.thumbnailUrl, DefaultThumbnail))
  }

  /** The feed shows "loading" with no rows, otherwise exactly the row under
      the cursor. */
  function Render(videos: seq<VideoRow>, i: int): (v: View)
    requires InRange(i, |videos|)
    ensures v.Loading? <==> videos == []
    ensures v.Showing? ==> v.card == CardFor(videos[i]) && v.card.key == videos[i].id
  {
    if |videos| == 0 then Loading else Showing(CardFor(videos[i]))
  }

  /** Three rows, newest first: the cursor starts on the first, two steps
      down reach the last, and a third step stays there. */
  lemma FeedScenario(c: VideoRow, b: VideoRow, a: VideoRow)
    requires c.id == "C" && b.id == "B" && a.id == "A"
    ensures Render([c, b, a], 0).card.key == "C"
    ensures Render([c, b, a], Walk([NavDown], 0, 3)).card.key == "B"
    ensures Render([c, b, a], Walk([NavDown, NavDown], 0, 3)).card.key == "A"
    ensures Render([c, b, a], Walk([NavDown, NavDown, NavDown], 0, 3)).card.key == "A"
  {
    assert [NavDown, NavDown, NavDown][1..] == [NavDown, NavDown];
    assert [NavDown, NavDown][1..] == [NavDown];
  }

  /** The feed component: the rows and the cursor it holds. */
  class VideoList {
    var videos: seq<VideoRow>
    var currentIndex: int

    predicate Valid()
      reads this
    {
      InRange(currentIndex, |videos|)
    }

    constructor ()
      ensures videos == [] && currentIndex == 0 && Valid()
    {
      videos := [];
      currentIndex := 0;
    }

    /** The fetch made once on mount, while the list is still empty. A
        failed fetch leaves it empty, so the feed keeps showing "loading". */
    method LoadVideos(fetch: Fetch)
      requires Valid() && videos == []
      modifies this
      ensures Valid() && currentIndex == old(currentIndex) == 0
      ensures videos == match fetch
        case Fetched(Some(rows)) => rows
        case _ => []
    {
      if fetch.Fetched? {
        videos := if fetch.data.Some? then fetch.data.value else [];
      }
    }

    method HandleKeyDown(key: string)
      requires Valid()
      modifies this
      ensures Valid() && videos == old(videos)
      ensures currentIndex == KeyStep(key, old(currentIndex), |videos|)
    {
      if key == "ArrowUp" {
        currentIndex := if currentIndex > 0 then currentIndex - 1 else currentIndex;
      } else if key == "ArrowDown" {
        currentIndex := if currentIndex < |videos| - 1 then currentIndex + 1 else currentIndex;
      }
    }

    method PressUp()
      requires Valid()
      modifies this
      ensures Valid() && videos == old(videos)
      ensures currentIndex == Up(old(currentIndex))
    {
      currentIndex := if currentIndex > 0 then currentIndex - 1 else currentIndex;
    }

    method PressDown()
      requires Valid()
      modifies this
      ensures Valid() && videos == old(videos)
      ensures currentIndex == Down(old(currentIndex), |videos|)
    {
      currentIndex := if currentIndex < |videos| - 1 then currentIndex + 1 else currentIndex;
    }
  }
}
