/**
 * The hero banner's trailer button: it recovers the YouTube video key from
 * the `trailerUrl` of a trending pick, the part between the first `v=` and
 * the next `&`.
 */
module Hero {
  import opened Wrappers
  import opened Text
  import Server

  /**
   * `url ? url.split('v=')[1]?.split('&')[0] : null`; `None` stands for both
   * null and undefined, the latter when the URL has no `v=`.
   */
  function TrailerKey(trailerUrl: Option<string>): (key: Option<string>)
    ensures !Truthy(trailerUrl) ==> key.None?
    ensures Truthy(trailerUrl) && !Includes(trailerUrl.value, "v=") ==> key.None?
  {
    if !Truthy(trailerUrl) then None
    else
      var parts := Split(trailerUrl.value, "v=");
      if |parts| < 2 then
        None
      else
        Some(Split(parts[1], "&")[0])
  }

  /** The watch URL up to its `v=`. */
  const WatchHead: string := "https://www.youtube.com/watch?"

  lemma WatchPrefixShape()
    ensures Server.WatchPrefix == WatchHead + "v=" && 'v' !in WatchHead
  {
  }

  /**
   * The key the back end puts into a pick's watch URL comes back out of it,
   * provided the key itself contains neither `v=` nor `&`.
   */
  lemma {:induction false} TrailerKeyOfWatchUrl(key: string)
    requires !Includes(key, "v=") && '&' !in key
    ensures TrailerKey(Some(Server.WatchUrl(key))) == Some(key)
  {
    var head := WatchHead;
    WatchPrefixShape();
    var url := Server.WatchUrl(key);
    assert url == head + "v=" + key;
    IndexOfAfter(head, "v=", key);
    SplitAtFirst(head, "v=", key);
    IndexOfNotIncluded(key, "v=");
    SplitWithout(key, "v=");
    assert Split(url, "v=") == [head, key];
    assert forall j :: 0 <= j <= |key| ==> !("&" <= key[j..]) by {
      forall j | 0 <= j <= |key| ensures !("&" <= key[j..]) {
        if j < |key| { assert key[j..][0] == key[j]; }
      }
    }
    SplitWithout(key, "&");
  }
}
