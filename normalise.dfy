/**
 * Turning one raw Bilibili search item into the host's track record: the
 * `map` callbacks of bilibili.js `handleSearchMusic` and musicSearch.js
 * `handleResult`, which differ only in how the length is rendered.
 */
module Normalise {
  import opened Wrappers
  import opened JsValues
  import opened Duration

  /** `.` in a JavaScript regular expression matches anything but these. */
  predicate IsLineTerminator(c: char) {
    c == '\n' || c == '\r' || c == '\U{2028}' || c == '\U{2029}'
  }

  /**
   * A highlight tag as `/(<em(.*?)>)|(<\/em>)/` matches it: the closing tag,
   * or "<em" followed by the shortest run up to the first '>' on the same line.
   */
  predicate IsHighlightTag(t: string) {
    t == "</em>" ||
    (|t| >= 4 && t[..3] == "<em" && t[|t| - 1] == '>' &&
     forall j :: 3 <= j < |t| - 1 ==> t[j] != '>' && !IsLineTerminator(t[j]))
  }

  /** Position just past the first '>' at or after `i`, when no line terminator comes first. */
  function CloseAngle(s: string, i: nat): (r: Option<nat>)
    requires i <= |s|
    ensures r.Some? ==> i < r.value <= |s| && s[r.value - 1] == '>'
    ensures r.Some? ==> forall j :: i <= j < r.value - 1 ==> s[j] != '>' && !IsLineTerminator(s[j])
    decreases |s| - i
  {
    if i == |s| then None
    else if s[i] == '>' then Some(i + 1)
    else if IsLineTerminator(s[i]) then None
    else CloseAngle(s, i + 1)
  }

  /** Length of the highlight tag the regular expression matches at the start of `s`, if any. */
  function TagLength(s: string): (r: Option<nat>)
    ensures r.Some? ==> 0 < r.value <= |s| && IsHighlightTag(s[..r.value])
  {
    if |s| >= 3 && s[..3] == "<em" then
      var r := CloseAngle(s, 3);
      if r.Some? then
        assert s[..r.value][..3] == s[..3];
        r
      else None
    else if |s| >= 5 && s[..5] == "</em>" then Some(5)
    else None
  }

  /** A piece of a title: a matched highlight tag, or one character kept as it is. */
  datatype Piece = Tag(text: string) | Kept(c: char)

  function Render(ps: seq<Piece>): string {
    if ps == [] then ""
    else (match ps[0] case Tag(t) => t case Kept(c) => [c]) + Render(ps[1..])
  }

  function KeptText(ps: seq<Piece>): string
  {
    if ps == [] then ""
    else (match ps[0] case Tag(_) => "" case Kept(c) => [c]) + KeptText(ps[1..])
  }

  /** The left-to-right scan of a global `replace`: a tag where one matches, else one character. */
  function Lex(s: string): seq<Piece>
    decreases |s|
  {
    if s == [] then []
    else
      match TagLength(s)
      case Some(n) => [Tag(s[..n])] + Lex(s[n..])
      case None => [Kept(s[0])] + Lex(s[1..])
  }

  /** `title.replace(/(<em(.*?)>)|(<\/em>)/g, "")`. */
  function StripHighlight(s: string): string
  {
    KeptText(Lex(s))
  }

  lemma RenderCons(p: Piece, ps: seq<Piece>)
    ensures Render([p] + ps) == (match p case Tag(t) => t case Kept(c) => [c]) + Render(ps)
  {
    assert ([p] + ps)[1..] == ps;
  }

  /**
   * The scan loses nothing: its pieces put back together give the title, and
   * every piece it drops is a highlight tag; so stripping removes exactly the
   * matched tags and keeps every other character, in order.
   */
  lemma {:induction false} LexLossless(s: string)
    ensures Render(Lex(s)) == s
    ensures forall i :: 0 <= i < |Lex(s)| && Lex(s)[i].Tag? ==> IsHighlightTag(Lex(s)[i].text)
    decreases |s|
  {
    if s != [] {
      var n := LexHead(s);
      LexLossless(s[n..]);
      LosslessCons(s, n, Lex(s));
    }
  }

  /** Losslessness passes from the rest of the pieces to all of them. */
  lemma LosslessCons(s: string, n: nat, ps: seq<Piece>)
    requires n <= |s| && ps != [] && Render([ps[0]]) == s[..n] && Render(ps[1..]) == s[n..]
    requires ps[0].Tag? ==> IsHighlightTag(ps[0].text)
    requires forall i :: 0 <= i < |ps[1..]| && ps[1..][i].Tag? ==> IsHighlightTag(ps[1..][i].text)
    ensures Render(ps) == s
    ensures forall i :: 0 <= i < |ps| && ps[i].Tag? ==> IsHighlightTag(ps[i].text)
  {
    assert ps == [ps[0]] + ps[1..];
    RenderCons(ps[0], ps[1..]);
    RenderCons(ps[0], []);
    assert [ps[0]] + [] == [ps[0]];
    assert s[..n] + s[n..] == s;
    forall i | 0 < i < |ps| && ps[i].Tag? ensures IsHighlightTag(ps[i].text) {
      assert ps[i] == ps[1..][i - 1];
    }
  }

  /**
   * What the scan meets at offset `o` of `s`: a kept character is one where
   * no highlight tag starts, and a dropped tag is exactly the tag that
   * starts there.
   */
  predicate Scanned(s: string, o: nat, p: Piece) {
    o < |s| &&
    match p
    case Kept(c) => TagLength(s[o..]).None? && c == s[o]
    case Tag(t) => TagLength(s[o..]) == Some(|t|) && o + |t| <= |s| && t == s[o..o + |t|]
  }

  /**
   * The scan misses no tag: each piece, at the offset where the pieces
   * before it end, is a character where no tag starts or the whole tag that
   * starts there. With `LexLossless`, the pieces dropped are exactly the
   * matches of the global replace.
   */
  lemma LexScans(s: string)
    ensures forall i :: 0 <= i < |Lex(s)| ==> Scanned(s, |Render(Lex(s)[..i])|, Lex(s)[i])
  {
    forall i | 0 <= i < |Lex(s)| ensures Scanned(s, |Render(Lex(s)[..i])|, Lex(s)[i]) {
      LexScansAt(s, i);
    }
  }

  /** `LexScans` for the piece at index `i`, by induction on the text. */
  lemma {:induction false} LexScansAt(s: string, i: nat)
    requires i < |Lex(s)|
    ensures Scanned(s, |Render(Lex(s)[..i])|, Lex(s)[i])
    decreases |s|
  {
    var n := LexHead(s);
    if i == 0 {
      assert Lex(s)[..0] == [];
    } else {
      LexScansAt(s[n..], i - 1);
      ScannedAfterHead(s, n, Lex(s), i);
    }
  }

  /** The first piece of the scan: where no tag starts a character is kept, else the whole tag is dropped. */
  lemma LexHead(s: string) returns (n: nat)
    requires s != []
    ensures 0 < n <= |s| && Render([Lex(s)[0]]) == s[..n] && |Render([Lex(s)[0]])| == n
    ensures Lex(s) == [Lex(s)[0]] + Lex(s[n..]) && Lex(s)[1..] == Lex(s[n..])
    ensures Scanned(s, 0, Lex(s)[0])
    ensures Lex(s)[0].Tag? ==> IsHighlightTag(Lex(s)[0].text)
  {
    var t := TagLength(s);
    n := if t.Some? then t.value else 1;
    var p0 := if t.Some? then Tag(s[..n]) else Kept(s[0]);
    assert Lex(s) == [p0] + Lex(s[n..]);
    assert s[0..] == s;
    RenderCons(p0, []);
    assert [p0] + [] == [p0];
  }

  /** A piece after the first one, scanned in the rest of the text, is scanned in the whole text. */
  lemma ScannedAfterHead(s: string, n: nat, ps: seq<Piece>, i: nat)
    requires n <= |s| && 0 < i < |ps| && |Render([ps[0]])| == n
    requires Scanned(s[n..], |Render(ps[1..][..i - 1])|, ps[1..][i - 1])
    ensures Scanned(s, |Render(ps[..i])|, ps[i])
  {
    var q := ps[1..];
    assert ps == [ps[0]] + q;
    RenderPrefixCons(ps[0], q, i - 1);
    var o := |Render(q[..i - 1])|;
    ScannedShift(s, n, o, q[i - 1]);
    assert ps[i] == q[i - 1] && |Render(ps[..i])| == n + o;
  }

  lemma RenderPrefixCons(p0: Piece, q: seq<Piece>, j: nat)
    requires j <= |q|
    ensures |Render(([p0] + q)[..j + 1])| == |Render([p0])| + |Render(q[..j])|
  {
    assert ([p0] + q)[..j + 1] == [p0] + q[..j];
    RenderCons(p0, q[..j]);
    RenderCons(p0, []);
    assert [p0] + [] == [p0];
  }

  /** A piece scanned in a suffix is scanned in the whole text, further on. */
  lemma ScannedShift(s: string, n: nat, o: nat, p: Piece)
    requires n <= |s| && Scanned(s[n..], o, p)
    ensures Scanned(s, n + o, p)
  {
    assert s[n + o..] == s[n..][o..];
    if p.Tag? {
      assert s[n + o..n + o + |p.text|] == s[n..][o..o + |p.text|];
    }
  }

  lemma {:induction false} KeptTextShorter(ps: seq<Piece>)
    ensures |KeptText(ps)| <= |Render(ps)|
  {
    if ps != [] {
      KeptTextShorter(ps[1..]);
    }
  }

  /** Stripping never lengthens a title. */
  lemma StripShortens(s: string)
    ensures |StripHighlight(s)| <= |s|
  {
    LexLossless(s);
    KeptTextShorter(Lex(s));
  }

  /** `item.title?.replace(...) || ""`: an absent title gives "". */
  function TitleOf(title: Option<string>): (r: string)
    ensures title.None? ==> r == ""
    ensures title.Some? ==> r == StripHighlight(title.value)
  {
    match title
    case None => ""
    case Some(t) => StripHighlight(t)
  }

  lemma NoTagBeforePlainChar(t: string)
    requires |t| > 0 && t[0] != '<'
    ensures TagLength(t) == None
  {
    if |t| >= 3 {
      assert t[..3][0] == t[0];
    }
    if |t| >= 5 {
      assert t[..5][0] == t[0];
    }
  }

  lemma KeptTextCons(p: Piece, ps: seq<Piece>)
    ensures KeptText([p] + ps) == (match p case Tag(_) => "" case Kept(c) => [c]) + KeptText(ps)
  {
    assert ([p] + ps)[1..] == ps;
  }

  lemma LexUnfoldKept(t: string)
    requires t != [] && TagLength(t) == None
    ensures Lex(t) == [Kept(t[0])] + Lex(t[1..])
  {
  }

  /** Characters that cannot begin a tag are kept, in order. */
  lemma {:induction false} StripPlainPrefix(a: string, s: string)
    requires forall i :: 0 <= i < |a| ==> a[i] != '<'
    ensures StripHighlight(a + s) == a + StripHighlight(s)
    decreases |a|
  {
    if a == [] {
      assert a + s == s;
    } else {
      var t := a + s;
      var rest := a[1..] + s;
      assert t[0] == a[0];
      assert t[1..] == rest;
      NoTagBeforePlainChar(t);
      LexUnfoldKept(t);
      KeptTextCons(Kept(a[0]), Lex(rest));
      StripPlainPrefix(a[1..], s);
      var x := StripHighlight(s);
      assert StripHighlight(t) == [a[0]] + (a[1..] + x);
      assert [a[0]] + (a[1..] + x) == ([a[0]] + a[1..]) + x;
      assert [a[0]] + a[1..] == a;
    }
  }

  /** A title without '<' is returned unchanged. */
  lemma StripPlain(s: string)
    requires forall i :: 0 <= i < |s| ==> s[i] != '<'
    ensures StripHighlight(s) == s
  {
    StripPlainPrefix(s, "");
    assert s + "" == s;
  }

  lemma {:induction false} CloseAngleFinds(s: string, i: nat, k: nat)
    requires i <= k < |s| && s[k] == '>'
    requires forall j :: i <= j < k ==> s[j] != '>' && !IsLineTerminator(s[j])
    ensures CloseAngle(s, i) == Some(k + 1)
    decreases k - i
  {
    if i < k {
      CloseAngleFinds(s, i + 1, k);
    }
  }

  /** A highlight tag at the front is removed whole, whatever follows it. */
  lemma StripDropsTag(tag: string, s: string)
    requires IsHighlightTag(tag)
    ensures StripHighlight(tag + s) == StripHighlight(s)
  {
    var t := tag + s;
    assert t[..|tag|] == tag;
    if tag == "</em>" {
      assert t[..3] == "</e";
      assert TagLength(t) == Some(5);
    } else {
      assert t[..3] == "<em";
      CloseAngleFinds(t, 3, |tag| - 1);
      assert TagLength(t) == Some(|tag|);
    }
    assert t[|tag|..] == s;
    assert Lex(t) == [Tag(tag)] + Lex(s);
    KeptTextCons(Tag(tag), Lex(s));
  }

  /**
   * A highlighted title as Bilibili returns it, `<em class="keyword">foo</em>bar`,
   * loses both tags and keeps the rest.
   */
  lemma StripHighlightedWord(open: string, word: string, rest: string)
    requires IsHighlightTag(open) && open != "</em>"
    requires forall i :: 0 <= i < |word| ==> word[i] != '<'
    requires forall i :: 0 <= i < |rest| ==> rest[i] != '<'
    ensures StripHighlight(open + word + "</em>" + rest) == word + rest
  {
    StripPlain(rest);
    StripDropsTag("</em>", rest);
    StripPlainPrefix(word, "</em>" + rest);
    var tail := "</em>" + rest;
    StripDropsTag(open, word + tail);
    assert open + word + "</em>" + rest == open + (word + tail);
  }

  predicate StartsWithSlashes(s: string) {
    |s| >= 2 && s[..2] == "//"
  }

  /** `item.pic?.startsWith("//") ? `http:${item.pic}` : item.pic || null`. */
  function Artwork(pic: Option<string>): (r: Val)
    ensures r.Str? || r.Nil?
    ensures r.Str? ==> r.s != "" && !StartsWithSlashes(r.s)
    ensures r.Str? ==> pic.Some? && (r.s == pic.value || r.s == "http:" + pic.value)
    ensures r.Nil? <==> pic.None? || pic.value == ""
    ensures pic.Some? && StartsWithSlashes(pic.value) ==> r == Str("http:" + pic.value)
  {
    match pic
    case Some(p) =>
      if StartsWithSlashes(p) then
        assert ("http:" + p)[..2] == "ht";
        Str("http:" + p)
      else Or(Str(p), Nil)
    case None => Nil
  }

  const UnknownUploader := "未知UP主"

  /** `item.author || item.owner?.name || "未知UP主"`. */
  function Singer(author: Val, ownerName: Val): (r: Val)
    ensures Truthy(r)
    ensures Truthy(author) ==> r == author
    ensures !Truthy(author) && Truthy(ownerName) ==> r == ownerName
    ensures !Truthy(author) && !Truthy(ownerName) ==> r == Str(UnknownUploader)
  {
    Or(author, Or(ownerName, Str(UnknownUploader)))
  }

  /**
   * `item.bvid || item.aid || `bi_${item.cid || Math.random()}``; the random
   * number is the parameter `noise`.
   */
  function ItemId(bvid: Val, aid: Val, cid: Val, noise: string): (r: Val)
    ensures Truthy(r)
    ensures Truthy(bvid) ==> r == bvid
    ensures !Truthy(bvid) && Truthy(aid) ==> r == aid
    ensures !Truthy(bvid) && !Truthy(aid) && Truthy(cid) ==> r == Str("bi_" + ToText(cid))
  {
    Or(bvid, Or(aid, Str("bi_" + ToText(Or(cid, Str(noise))))))
  }

  /** `item.bvid || item.aid || ""`, the song id and album name. */
  function SongId(bvid: Val, aid: Val): (r: Val)
    ensures Truthy(bvid) ==> r == bvid
    ensures !Truthy(bvid) && Truthy(aid) ==> r == aid
    ensures !Truthy(r) <==> !Truthy(bvid) && !Truthy(aid)
  {
    Or(bvid, Or(aid, Str("")))
  }

  /** One search result item as the Bilibili search API returns it. */
  datatype RawItem = RawItem(
    title: Option<string>,
    duration: RawDuration,
    author: Val,
    ownerName: Val,   // `item.owner?.name`
    bvid: Val,
    aid: Val,
    cid: Val,
    pic: Option<string>)

  /** `{ type, size: null }`. */
  datatype Quality = Quality(kind: string)

  const DefaultQualities := [Quality("128k")]

  datatype Meta = Meta(
    songId: Val,
    albumName: Val,
    picUrl: Val,
    qualities: seq<Quality>,
    bvid: Val,
    cid: Val,
    aid: Val)

  /** The host's track record. */
  datatype Track = Track(
    id: Val,
    name: Val,
    singer: Val,
    source: string,
    interval: Val,
    meta: Meta)

  /** The fields both normalisers compute alike; `interval` is the rendered length. */
  function ItemTrack(item: RawItem, noise: string, interval: Val): (t: Track)
    ensures t.source == "bi" && t.meta.qualities == DefaultQualities
    ensures t.interval == interval
    ensures t.meta.bvid == item.bvid && t.meta.aid == item.aid && t.meta.cid == item.cid
  {
    var songId := SongId(item.bvid, item.aid);
    Track(
      ItemId(item.bvid, item.aid, item.cid, noise),
      Str(TitleOf(item.title)),
      Singer(item.author, item.ownerName),
      "bi",
      interval,
      Meta(songId, songId, Artwork(item.pic), DefaultQualities, item.bvid, item.cid, item.aid))
  }

  /** bilibili.js: the length is rendered by `secToDuration(durationToSec(item.duration))`. */
  function PluginTrack(item: RawItem, noise: string): Track
  {
    var text := SecToDuration(Seconds(DurationToSec(item.duration)));
    ItemTrack(item, noise, Str(text.value))
  }

  /**
   * musicSearch.js: the length goes through `formatPlayTime`, a parameter
   * here. That record has no `id` field: its `songmid` is computed by the
   * rule of `ItemId`, and `Track.id` stands for `songmid` on this path; its
   * `img` is `Artwork(pic)`, the same value as `meta.picUrl`.
   */
  function SdkTrack(item: RawItem, noise: string, formatPlayTime: nat -> string): Track
  {
    var text := SdkSecToDuration(Seconds(DurationToSec(item.duration)), formatPlayTime);
    ItemTrack(item, noise, Str(text.value))
  }

  /** What a bilibili.js track carries, field by field. */
  lemma PluginTrackFields(item: RawItem, noise: string)
    ensures var t := PluginTrack(item, noise);
      && t.source == "bi" && t.meta.qualities == [Quality("128k")]
      && Truthy(t.id) && Truthy(t.singer)
      && t.name == Str(TitleOf(item.title))
      && t.meta.songId == t.meta.albumName == SongId(item.bvid, item.aid)
      && t.meta.picUrl == Artwork(item.pic)
      && t.meta.bvid == item.bvid && t.meta.aid == item.aid && t.meta.cid == item.cid
      && t.interval.Str? && IsDurationText(t.interval.s)
      && DurationToSec(Text(t.interval.s)) == DurationToSec(item.duration)
  {
    ClockRoundTrip(DurationToSec(item.duration));
  }

  /** What a musicSearch.js track carries: the same, with `formatPlayTime`'s rendering. */
  lemma SdkTrackFields(item: RawItem, noise: string, formatPlayTime: nat -> string)
    ensures var t := SdkTrack(item, noise, formatPlayTime);
      && t.source == "bi" && t.meta.qualities == [Quality("128k")]
      && t.interval == Str(formatPlayTime(DurationToSec(item.duration)))
      && t == PluginTrack(item, noise).(interval := t.interval)
  {
  }
}
