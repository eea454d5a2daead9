/**
 * The Twitch command: which query `main` runs, the three builders that turn a getter's records
 * into launcher items, and what `main` hands to the launcher package afterwards.
 */
module TwitchMain {
  import opened Wrappers
  import Decimal
  import Strings

  /** The fields of a follow record that the builders read. */
  datatype Follow = Follow(toLogin: string, toName: string)

  /** The fields of a stream record that the builders read. */
  datatype Stream = Stream(userLogin: string, userName: string, gameName: string, viewerCount: int, title: string)

  /** A launcher item: its title and subtitle, and the argument passed on when it is chosen. */
  datatype Item = Item(title: string, subTitle: string, arg: string)

  /** What a getter returns: the records it read, or the error it met. */
  datatype Outcome<T> = Ok(values: seq<T>) | Err(message: string)

  const ChannelPrefix := "https://www.twitch.tv/"

  /** `fmt.Sprintf("https://www.twitch.tv/%s", login)`. */
  function ChannelUrl(login: string): (url: string)
    ensures ChannelLogin(url) == Some(login)
  {
    ChannelPrefix + login
  }

  /** The login a channel URL points at. */
  function ChannelLogin(url: string): Option<string> {
    if ChannelPrefix <= url then Some(url[|ChannelPrefix|..]) else None
  }

  function FollowItem(f: Follow): Item {
    var url := ChannelUrl(f.toLogin);
    Item(f.toName, url, url)
  }

  function FollowedStreamItem(s: Stream): Item {
    Item(s.userName,
         s.gameName + " - " + Decimal.FormatInt(s.viewerCount) + " viewers - " + s.title,
         ChannelUrl(s.userLogin))
  }

  function GameStreamItem(s: Stream): Item {
    Item(s.userName, Decimal.FormatInt(s.viewerCount) + " viewers - " + s.title, ChannelUrl(s.userLogin))
  }

  /** Each record turned into an item, in order. */
  function MapItems<T>(xs: seq<T>, f: T -> Item): seq<Item> {
    if xs == [] then [] else [f(xs[0])] + MapItems(xs[1..], f)
  }

  /** A getter's outcome with its records turned into items; an error passes through unchanged. */
  function MapOutcome<T>(o: Outcome<T>, f: T -> Item): Outcome<Item> {
    match o
    case Err(message) => Err(message)
    case Ok(xs) => Ok(MapItems(xs, f))
  }

  /** The items are exactly one per record, in the records' order. */
  lemma {:induction false} MapItemsSpec<T>(xs: seq<T>, f: T -> Item)
    ensures |MapItems(xs, f)| == |xs|
    ensures forall i :: 0 <= i < |xs| ==> MapItems(xs, f)[i] == f(xs[i])
  {
    if xs != [] {
      MapItemsSpec(xs[1..], f);
      forall i | 0 < i < |xs| ensures MapItems(xs, f)[i] == f(xs[i]) {
        assert MapItems(xs, f)[i] == MapItems(xs[1..], f)[i - 1];
      }
    }
  }

  /** A sequence that agrees with `f` record by record is the mapped sequence. */
  lemma MapItemsUnique<T>(xs: seq<T>, f: T -> Item, ys: seq<Item>)
    requires |ys| == |xs| && forall i :: 0 <= i < |xs| ==> ys[i] == f(xs[i])
    ensures ys == MapItems(xs, f)
  {
    MapItemsSpec(xs, f);
  }

  /** `getFollowItems`. */
  method GetFollowItems(getter: () -> Outcome<Follow>) returns (r: Outcome<Item>)
    ensures r == MapOutcome(getter(), FollowItem)
  {
    var outcome := getter();
    if outcome.Err? {
      return Err(outcome.message);
    }
    var follows := outcome.values;
    var items := new Item[|follows|];
    for i := 0 to |follows|
      invariant forall k :: 0 <= k < i ==> items[k] == FollowItem(follows[k])
    {
      var url := ChannelUrl(follows[i].toLogin);
      items[i] := Item(follows[i].toName, url, url);
    }
    MapItemsUnique(follows, FollowItem, items[..]);
    r := Ok(items[..]);
  }

  /** `getFollowedStreamItems`. */
  method GetFollowedStreamItems(getter: () -> Outcome<Stream>) returns (r: Outcome<Item>)
    ensures r == MapOutcome(getter(), FollowedStreamItem)
  {
    var outcome := getter();
    if outcome.Err? {
      return Err(outcome.message);
    }
    var streams := outcome.values;
    var items := new Item[|streams|];
    for i := 0 to |streams|
      invariant forall k :: 0 <= k < i ==> items[k] == FollowedStreamItem(streams[k])
    {
      var stream := streams[i];
      items[i] := Item(stream.userName,
                       stream.gameName + " - " + Decimal.FormatInt(stream.viewerCount) + " viewers - " + stream.title,
                       ChannelUrl(stream.userLogin));
    }
    MapItemsUnique(streams, FollowedStreamItem, items[..]);
    r := Ok(items[..]);
  }

  /** `getGameStreamItems`: the getter is asked for exactly the given game and language. */
  method GetGameStreamItems(getter: (string, string) -> Outcome<Stream>, game: string, lang: string)
    returns (r: Outcome<Item>)
    ensures r == MapOutcome(getter(game, lang), GameStreamItem)
  {
    var outcome := getter(game, lang);
    if outcome.Err? {
      return Err(outcome.message);
    }
    var streams := outcome.values;
    var items := new Item[|streams|];
    for i := 0 to |streams|
      invariant forall k :: 0 <= k < i ==> items[k] == GameStreamItem(streams[k])
    {
      var stream := streams[i];
      items[i] := Item(stream.userName,
                       Decimal.FormatInt(stream.viewerCount) + " viewers - " + stream.title,
                       ChannelUrl(stream.userLogin));
    }
    MapItemsUnique(streams, GameStreamItem, items[..]);
    r := Ok(items[..]);
  }

  /**
   * Follows: an error comes back unchanged; otherwise one item per follow, in order, titled with
   * the channel's name, whose subtitle and argument are both the channel URL of its login.
   */
  lemma FollowItemsSpec(o: Outcome<Follow>)
    ensures o.Err? ==> MapOutcome(o, FollowItem) == Err(o.message)
    ensures o.Ok? ==> MapOutcome(o, FollowItem).Ok? && |MapOutcome(o, FollowItem).values| == |o.values|
    ensures o.Ok? ==> forall i :: 0 <= i < |o.values| ==>
      var item := MapOutcome(o, FollowItem).values[i];
      && item.title == o.values[i].toName
      && item.subTitle == item.arg == ChannelUrl(o.values[i].toLogin)
      && ChannelLogin(item.arg) == Some(o.values[i].toLogin)
  {
    if o.Ok? {
      MapItemsSpec(o.values, FollowItem);
    }
  }

  /**
   * Followed streams: an error comes back unchanged; otherwise one item per stream, in order,
   * titled with the streamer's name, subtitled "game - N viewers - title", pointing at the
   * streamer's channel.
   */
  lemma FollowedStreamItemsSpec(o: Outcome<Stream>)
    ensures o.Err? ==> MapOutcome(o, FollowedStreamItem) == Err(o.message)
    ensures o.Ok? ==> MapOutcome(o, FollowedStreamItem).Ok? && |MapOutcome(o, FollowedStreamItem).values| == |o.values|
    ensures o.Ok? ==> forall i :: 0 <= i < |o.values| ==>
      var item, s := MapOutcome(o, FollowedStreamItem).values[i], o.values[i];
      && item.title == s.userName
      && item.subTitle == s.gameName + " - " + Decimal.FormatInt(s.viewerCount) + " viewers - " + s.title
      && ChannelLogin(item.arg) == Some(s.userLogin)
  {
    if o.Ok? {
      MapItemsSpec(o.values, FollowedStreamItem);
    }
  }

  /** The viewer count a game-stream subtitle starts with. */
  function LeadingCount(subTitle: string): Option<int> {
    Decimal.ParseInt(Strings.Cut(subTitle, ' ').0)
  }

  /** A game-stream subtitle starts with the viewer count, which reads back exactly; the game is not named. */
  lemma GameStreamSubtitle(s: Stream)
    ensures GameStreamItem(s).subTitle == Decimal.FormatInt(s.viewerCount) + " viewers - " + s.title
    ensures LeadingCount(GameStreamItem(s).subTitle) == Some(s.viewerCount)
  {
    var count := Decimal.FormatInt(s.viewerCount);
    assert GameStreamItem(s).subTitle == count + [' '] + ("viewers - " + s.title);
    Strings.CutAt(count, ' ', "viewers - " + s.title);
    Decimal.ParseFormatInt(s.viewerCount);
  }

  /**
   * Game streams: an error comes back unchanged; otherwise one item per stream, in order, titled
   * with the streamer's name, pointing at the streamer's channel, whose subtitle gives back the
   * viewer count.
   */
  lemma GameStreamItemsSpec(o: Outcome<Stream>)
    ensures o.Err? ==> MapOutcome(o, GameStreamItem) == Err(o.message)
    ensures o.Ok? ==> MapOutcome(o, GameStreamItem).Ok? && |MapOutcome(o, GameStreamItem).values| == |o.values|
    ensures o.Ok? ==> forall i :: 0 <= i < |o.values| ==>
      var item, s := MapOutcome(o, GameStreamItem).values[i], o.values[i];
      && item.title == s.userName
      && item.subTitle == Decimal.FormatInt(s.viewerCount) + " viewers - " + s.title
      && LeadingCount(item.subTitle) == Some(s.viewerCount)
      && ChannelLogin(item.arg) == Some(s.userLogin)
  {
    if o.Ok? {
      MapItemsSpec(o.values, GameStreamItem);
      forall i | 0 <= i < |o.values| ensures LeadingCount(GameStreamItem(o.values[i]).subTitle) == Some(o.values[i].viewerCount) {
        GameStreamSubtitle(o.values[i]);
      }
    }
  }

  /** The query `main` runs, chosen from its flags. */
  datatype Query = GameStreams(game: string, lang: string) | FollowedStreams | Follows

  /** A game ID wins over the live flag; the live flag wins over plain follows. */
  function SelectQuery(gameId: string, live: bool, gameLang: string): (q: Query)
    ensures q.GameStreams? <==> |gameId| > 0
    ensures q.GameStreams? ==> q.game == gameId && q.lang == gameLang
    ensures q.FollowedStreams? <==> |gameId| == 0 && live
    ensures q.Follows? <==> |gameId| == 0 && !live
  {
    if |gameId| > 0 then GameStreams(gameId, gameLang)
    else if live then FollowedStreams
    else Follows
  }

  /** What `main` hands to the launcher package: the error alone, or the items with the item shown when there are none. */
  datatype Emission = SendError(message: string) | SendResult(items: seq<Item>, fallback: Item)

  const FollowingDirectory := "https://www.twitch.tv/directory/following"

  const Fallback := Item("You're alone! \U{AF}\\_(\U{30C4})_/\U{AF}", "Try browsing Twitch\U{2026}", FollowingDirectory)

  /** An error is sent on its own; otherwise the items are sent with the fallback item. */
  function Emit(r: Outcome<Item>): (e: Emission)
    ensures e.SendError? <==> r.Err?
    ensures r.Err? ==> e.message == r.message
    ensures r.Ok? ==> e.items == r.values && e.fallback.arg == FollowingDirectory
  {
    match r
    case Err(message) => SendError(message)
    case Ok(items) => SendResult(items, Fallback)
  }

  /** The body of `main` after flag parsing, with the three getters passed in. */
  method Run(gameId: string, live: bool, gameLang: string,
             getFollows: () -> Outcome<Follow>,
             getFollowedStreams: () -> Outcome<Stream>,
             getGameStreams: (string, string) -> Outcome<Stream>)
    returns (e: Emission)
    ensures |gameId| > 0 ==> e == Emit(MapOutcome(getGameStreams(gameId, gameLang), GameStreamItem))
    ensures |gameId| == 0 && live ==> e == Emit(MapOutcome(getFollowedStreams(), FollowedStreamItem))
    ensures |gameId| == 0 && !live ==> e == Emit(MapOutcome(getFollows(), FollowItem))
  {
    var items: Outcome<Item>;
    match SelectQuery(gameId, live, gameLang) {
      case GameStreams(game, lang) =>
        items := GetGameStreamItems(getGameStreams, game, lang);
      case FollowedStreams =>
        items := GetFollowedStreamItems(getFollowedStreams);
      case Follows =>
        items := GetFollowItems(getFollows);
    }
    e := Emit(items);
  }
}
