/**
 * The playlist reader: one JSON object (RFC 4627, section 2.2) whose
 * `numberOfSongs` member is an integer and whose `songs` member is an array
 * (section 2.3) of objects with string members `artist`, `title`, `path` and
 * `cover`. The reader is a singleton that keeps the declared count and the
 * list of songs read so far.
 *
 * The input is an already-tokenised JSON value; an object is the sequence of
 * its members in document order, so repeated keys are kept.
 */
module Playlist {
  import opened Wrappers

  datatype Json =
    | JNull
    | JBool(b: bool)
    | JInt(n: int)
    | JString(s: string)
    | JArray(items: seq<Json>)
    | JObject(members: seq<Member>)

  datatype Member = Member(key: string, value: Json)

  /** One playlist record. */
  datatype Song = Song(artist: string, title: string, path: string, cover: string)

  /** A record before any of its members was read. */
  const EmptySong: Song := Song("", "", "", "")

  /** The exceptions the token reader throws when a value has the wrong kind. */
  datatype ParseError =
    | ObjectExpected   // beginObject on something else
    | ArrayExpected    // beginArray on something else
    | StringExpected   // nextString on something else
    | IntExpected      // nextInt on something else, or outside the 32-bit range

  const INT_MIN: int := -0x8000_0000
  const INT_MAX: int := 0x7fff_ffff

  /** A value `nextInt` accepts. */
  predicate IsInt32(v: Json) {
    v.JInt? && INT_MIN <= v.n <= INT_MAX
  }

  /** The reader's `nextString`. */
  function NextString(v: Json): (r: Result<string, ParseError>)
    ensures r.Ok? <==> v.JString?
    ensures r.Ok? ==> r.value == v.s
  {
    if v.JString? then Ok(v.s) else Err(StringExpected)
  }

  /** The reader's `nextInt`. */
  function NextInt(v: Json): (r: Result<int, ParseError>)
    ensures r.Ok? <==> IsInt32(v)
    ensures r.Ok? ==> r.value == v.n && INT_MIN <= r.value <= INT_MAX
  {
    if IsInt32(v) then Ok(v.n) else Err(IntExpected)
  }

  /** The four keys a song element is read from. */
  predicate IsSongKey(k: string) {
    k == "artist" || k == "title" || k == "path" || k == "cover"
  }

  // ------------------------------------------------------------------------
  // Specification of what is read
  // ------------------------------------------------------------------------

  /** The members of a song element that the reader accepts: its four keys hold strings. */
  predicate SongMembersOk(members: seq<Member>) {
    forall i :: 0 <= i < |members| && IsSongKey(members[i].key) ==> members[i].value.JString?
  }

  /** An element of a `songs` array that the reader accepts. */
  predicate SongItemOk(item: Json) {
    item.JObject? && SongMembersOk(item.members)
  }

  /** The elements of a `songs` array that the reader accepts. */
  predicate SongItemsOk(items: seq<Json>) {
    forall i :: 0 <= i < |items| ==> SongItemOk(items[i])
  }

  /** A top-level member the reader accepts. */
  predicate TopMemberOk(m: Member) {
    (m.key == "numberOfSongs" ==> IsInt32(m.value)) &&
    (m.key == "songs" ==> m.value.JArray? && SongItemsOk(m.value.items))
  }

  predicate TopMembersOk(members: seq<Member>) {
    forall i :: 0 <= i < |members| ==> TopMemberOk(members[i])
  }

  /** A whole document the reader accepts. */
  predicate DocumentOk(doc: Json) {
    doc.JObject? && TopMembersOk(doc.members)
  }

  /**
   * The value of the last member named `key` that holds a string, or "" when
   * there is none.
   */
  function Field(members: seq<Member>, key: string): string
    decreases |members|
  {
    if |members| == 0 then ""
    else
      var last := members[|members| - 1];
      if last.key == key && last.value.JString? then last.value.s
      else Field(members[..|members| - 1], key)
  }

  /** The record an element's members describe. */
  function SongOf(members: seq<Member>): Song {
    Song(Field(members, "artist"), Field(members, "title"), Field(members, "path"), Field(members, "cover"))
  }

  /** One record per element of a `songs` array, in document order. */
  function SongsOf(items: seq<Json>): (r: seq<Song>)
    requires forall i :: 0 <= i < |items| ==> items[i].JObject?
    ensures |r| == |items|
    ensures forall i :: 0 <= i < |items| ==> r[i] == SongOf(items[i].members)
    decreases |items|
  {
    if |items| == 0 then []
    else SongsOf(items[..|items| - 1]) + [SongOf(items[|items| - 1].members)]
  }

  /** The records of every `songs` member of the document, one array after another. */
  function AllSongs(members: seq<Member>): seq<Song>
    requires TopMembersOk(members)
    decreases |members|
  {
    if |members| == 0 then []
    else
      var last := members[|members| - 1];
      AllSongs(members[..|members| - 1]) + (if last.key == "songs" then SongsOf(last.value.items) else [])
  }

  /** The value of the last `numberOfSongs` member, or `previous` when there is none. */
  function DeclaredCount(members: seq<Member>, previous: int): int
    requires TopMembersOk(members)
    decreases |members|
  {
    if |members| == 0 then previous
    else
      var last := members[|members| - 1];
      if last.key == "numberOfSongs" then last.value.n
      else DeclaredCount(members[..|members| - 1], previous)
  }

  /**
   * The number of leading elements of a `songs` array the reader accepts,
   * counted from element `from`: the reader throws at the element after them.
   */
  function AcceptedItems(items: seq<Json>, from: nat := 0): (k: nat)
    requires from <= |items| && SongItemsOk(items[..from])
    ensures from <= k <= |items| && SongItemsOk(items[..k])
    ensures k < |items| ==> !SongItemOk(items[k])
    decreases |items| - from
  {
    if from == |items| || !SongItemOk(items[from]) then from
    else
      assert items[..from + 1][from] == items[from];
      AcceptedItems(items, from + 1)
  }

  /**
   * The number of leading members of a document the reader accepts, counted
   * from member `from`: the reader throws at the member after them.
   */
  function AcceptedMembers(members: seq<Member>, from: nat := 0): (k: nat)
    requires from <= |members| && TopMembersOk(members[..from])
    ensures from <= k <= |members| && TopMembersOk(members[..k])
    ensures k < |members| ==> !TopMemberOk(members[k])
    decreases |members| - from
  {
    if from == |members| || !TopMemberOk(members[from]) then from
    else
      assert members[..from + 1][from] == members[from];
      AcceptedMembers(members, from + 1)
  }

  /** The records a rejected top-level member appends before the reader throws. */
  function PartialSongs(m: Member): seq<Song> {
    if m.key == "songs" && m.value.JArray?
    then SongsOf(m.value.items[..AcceptedItems(m.value.items)])
    else []
  }

  /** The count a document leaves behind: the last one declared before the first rejected member. */
  function StreamCount(members: seq<Member>, previous: int): int {
    DeclaredCount(members[..AcceptedMembers(members)], previous)
  }

  /**
   * The records a document appends: those of every accepted `songs` member,
   * then those a rejected `songs` member appends before the reader throws.
   */
  function StreamSongs(members: seq<Member>): seq<Song> {
    var k := AcceptedMembers(members);
    AllSongs(members[..k]) + if k < |members| then PartialSongs(members[k]) else []
  }

  /** Reading one more accepted element appends its record. */
  lemma ItemStep(items: seq<Json>, i: nat)
    requires i < |items| && SongItemsOk(items[..i]) && SongItemOk(items[i])
    ensures SongItemsOk(items[..i + 1])
    ensures SongsOf(items[..i + 1]) == SongsOf(items[..i]) + [SongOf(items[i].members)]
  {
    assert items[..i + 1][..i] == items[..i];
    assert items[..i + 1][i] == items[i];
  }

  /** Reading one more accepted member updates the count and the songs as that member says. */
  lemma MemberStep(members: seq<Member>, i: nat, previous: int)
    requires i < |members| && TopMembersOk(members[..i]) && TopMemberOk(members[i])
    ensures TopMembersOk(members[..i + 1])
    ensures DeclaredCount(members[..i + 1], previous)
         == if members[i].key == "numberOfSongs" then members[i].value.n else DeclaredCount(members[..i], previous)
    ensures AllSongs(members[..i + 1])
         == AllSongs(members[..i]) + if members[i].key == "songs" then SongsOf(members[i].value.items) else []
  {
    assert members[..i + 1][..i] == members[..i];
    assert members[..i + 1][i] == members[i];
  }

  /** The first rejected element is the one AcceptedItems stops at. */
  lemma FirstRejectedItem(items: seq<Json>, i: nat)
    requires i < |items| && SongItemsOk(items[..i]) && !SongItemOk(items[i])
    ensures AcceptedItems(items) == i
  {
    forall j | 0 <= j < i
      ensures SongItemOk(items[j])
    {
      assert items[..i][j] == items[j];
    }
    var k := AcceptedItems(items);
    forall j | 0 <= j < k
      ensures SongItemOk(items[j])
    {
      assert items[..k][j] == items[j];
    }
  }

  /** The first rejected member is the one AcceptedMembers stops at. */
  lemma FirstRejectedMember(members: seq<Member>, i: nat)
    requires i < |members| && TopMembersOk(members[..i]) && !TopMemberOk(members[i])
    ensures AcceptedMembers(members) == i
  {
    forall j | 0 <= j < i
      ensures TopMemberOk(members[j])
    {
      assert members[..i][j] == members[j];
    }
    var k := AcceptedMembers(members);
    forall j | 0 <= j < k
      ensures TopMemberOk(members[j])
    {
      assert members[..k][j] == members[j];
    }
  }

  /** A fully accepted document leaves its declared count and all its records. */
  lemma StreamAccepted(members: seq<Member>, previous: int)
    requires TopMembersOk(members)
    ensures StreamCount(members, previous) == DeclaredCount(members, previous)
    ensures StreamSongs(members) == AllSongs(members)
  {
    assert members[..|members|] == members;
  }

  /** A document the reader rejects at member `i` leaves what the members before it set. */
  lemma StreamStopsAt(members: seq<Member>, i: nat, previous: int)
    requires i < |members| && TopMembersOk(members[..i]) && !TopMemberOk(members[i])
    ensures !TopMembersOk(members)
    ensures StreamCount(members, previous) == DeclaredCount(members[..i], previous)
    ensures StreamSongs(members) == AllSongs(members[..i]) + PartialSongs(members[i])
  {
    FirstRejectedMember(members, i);
    RejectedMember(members, i);
  }

  /** Regrouping appended records, stated once for the reader's proofs. */
  lemma AppendAssoc<T>(a: seq<T>, b: seq<T>, c: seq<T>)
    ensures a + b + c == a + (b + c)
  {
  }

  /** One rejected member rejects the whole document. */
  lemma RejectedMember(members: seq<Member>, i: nat)
    requires i < |members| && !TopMemberOk(members[i])
    ensures !TopMembersOk(members)
  {
  }

  // ------------------------------------------------------------------------
  // The reader
  // ------------------------------------------------------------------------

  /**
   * Reads one element of a `songs` array into a fresh record: each known key
   * overwrites its field, every other key is skipped.
   */
  method ReadSong(members: seq<Member>) returns (r: Result<Song, ParseError>)
    ensures r.Ok? <==> SongMembersOk(members)
    ensures r.Ok? ==> r.value == SongOf(members)
    ensures r.Err? ==> r.error == StringExpected
  {
    var song := EmptySong;
    var i := 0;
    while i < |members|
      invariant 0 <= i <= |members|
      invariant SongMembersOk(members[..i])
      invariant song == SongOf(members[..i])
    {
      var m := members[i];
      assert members[..i + 1][..i] == members[..i];
      if m.key == "artist" {
        var v := NextString(m.value);
        if v.Err? { return Err(v.error); }
        song := song.(artist := v.value);
      } else if m.key == "title" {
        var v := NextString(m.value);
        if v.Err? { return Err(v.error); }
        song := song.(title := v.value);
      } else if m.key == "path" {
        var v := NextString(m.value);
        if v.Err? { return Err(v.error); }
        song := song.(path := v.value);
      } else if m.key == "cover" {
        var v := NextString(m.value);
        if v.Err? { return Err(v.error); }
        song := song.(cover := v.value);
      }
      i := i + 1;
    }
    assert members[..i] == members;
    return Ok(song);
  }

  /** The singleton reader with its declared count and accumulated songs. */
  class JsonParser {
    var numberOfSongs: int
    var songs: seq<Song>

    /** The singleton as first created: count 0, no songs. */
    constructor ()
      ensures numberOfSongs == 0 && songs == []
    {
      numberOfSongs := 0;
      songs := [];
    }

    method GetNumberOfSongs() returns (n: int)
      ensures n == numberOfSongs
    {
      n := numberOfSongs;
    }

    method GetSongList() returns (list: seq<Song>)
      ensures list == songs
    {
      list := songs;
    }

    /** The song at `index`; the list's `get` throws outside the bounds. */
    method GetSong(index: int) returns (song: Song)
      requires 0 <= index < |songs|
      ensures song == songs[index]
    {
      song := songs[index];
    }

    /**
     * Reads a whole document. On success the count is the last declared one
     * (or the previous count) and the songs of every `songs` array are
     * appended after those already held. On failure the reader stops at the
     * first member it rejects: the members before it have had their effect,
     * a rejected `songs` array has appended the elements before its first
     * rejected one, and nothing is removed.
     */
    method ReadJsonStream(doc: Json) returns (r: Outcome<ParseError>)
      modifies this
      ensures r.Pass? <==> DocumentOk(doc)
      ensures r.Pass? ==> numberOfSongs == DeclaredCount(doc.members, old(numberOfSongs))
      ensures r.Pass? ==> songs == old(songs) + AllSongs(doc.members)
      ensures !doc.JObject? ==> numberOfSongs == old(numberOfSongs) && songs == old(songs)
      ensures doc.JObject? ==> numberOfSongs == StreamCount(doc.members, old(numberOfSongs))
      ensures doc.JObject? ==> songs == old(songs) + StreamSongs(doc.members)
      ensures old(songs) <= songs
    {
      if !doc.JObject? {
        return Fail(ObjectExpected);
      }
      var members := doc.members;
      var i := 0;
      while i < |members|
        invariant 0 <= i <= |members|
        invariant TopMembersOk(members[..i])
        invariant numberOfSongs == DeclaredCount(members[..i], old(numberOfSongs))
        invariant songs == old(songs) + AllSongs(members[..i])
      {
        var out := ReadMember(members[i]);
        if out.Fail? {
          StreamStopsAt(members, i, old(numberOfSongs));
          AppendAssoc(old(songs), AllSongs(members[..i]), PartialSongs(members[i]));
          return out;
        }
        MemberStep(members, i, old(numberOfSongs));
        AppendAssoc(old(songs), AllSongs(members[..i]),
                    if members[i].key == "songs" then SongsOf(members[i].value.items) else []);
        i := i + 1;
      }
      assert members[..i] == members;
      StreamAccepted(members, old(numberOfSongs));
      r := Pass;
    }

    /**
     * Reads one top-level member: a `numberOfSongs` member sets the count, a
     * `songs` member appends its records, any other member is skipped.
     * A rejected member leaves the count and appends what its array read
     * before the reader threw.
     */
    method ReadMember(m: Member) returns (r: Outcome<ParseError>)
      modifies this
      ensures r.Pass? <==> TopMemberOk(m)
      ensures r.Pass? ==>
                numberOfSongs == if m.key == "numberOfSongs" then m.value.n else old(numberOfSongs)
      ensures r.Pass? ==>
                songs == old(songs) + if m.key == "songs" then SongsOf(m.value.items) else []
      ensures r.Fail? ==> numberOfSongs == old(numberOfSongs) && songs == old(songs) + PartialSongs(m)
    {
      if m.key == "numberOfSongs" {
        var n := NextInt(m.value);
        if n.Err? {
          return Fail(n.error);
        }
        numberOfSongs := n.value;
        return Pass;
      }
      if m.key == "songs" {
        r := ReadJsonArray(m.value);
        return;
      }
      r := Pass;
    }

    /**
     * Reads a `songs` array: one record per element, appended in order, up to
     * the first element it rejects. The declared count is not touched.
     */
    method ReadJsonArray(v: Json) returns (r: Outcome<ParseError>)
      modifies this
      ensures numberOfSongs == old(numberOfSongs)
      ensures r.Pass? <==> v.JArray? && SongItemsOk(v.items)
      ensures r.Pass? ==> songs == old(songs) + SongsOf(v.items)
      ensures songs == old(songs) + if v.JArray? then SongsOf(v.items[..AcceptedItems(v.items)]) else []
      ensures old(songs) <= songs
    {
      if !v.JArray? {
        return Fail(ArrayExpected);
      }
      var items := v.items;
      var i := 0;
      while i < |items|
        invariant 0 <= i <= |items|
        invariant SongItemsOk(items[..i])
        invariant songs == old(songs) + SongsOf(items[..i])
        invariant numberOfSongs == old(numberOfSongs)
      {
        var item := items[i];
        if !item.JObject? {
          FirstRejectedItem(items, i);
          return Fail(ObjectExpected);
        }
        var song := ReadSong(item.members);
        if song.Err? {
          FirstRejectedItem(items, i);
          return Fail(song.error);
        }
        ItemStep(items, i);
        songs := songs + [song.value];
        i := i + 1;
      }
      assert items[..i] == items;
      r := Pass;
    }
  }

  // ------------------------------------------------------------------------
  // Properties of what is read
  // ------------------------------------------------------------------------

  /** A field whose key never occurs in the element stays "". */
  lemma {:induction false} MissingFieldStaysEmpty(members: seq<Member>, key: string)
    requires forall i :: 0 <= i < |members| ==> members[i].key != key
    ensures Field(members, key) == ""
    decreases |members|
  {
    if |members| > 0 {
      MissingFieldStaysEmpty(members[..|members| - 1], key);
    }
  }

  /** A member with another key, wherever it stands, does not change a field. */
  lemma {:induction false} OtherKeyIgnored(pre: seq<Member>, m: Member, post: seq<Member>, key: string)
    requires m.key != key
    ensures Field(pre + [m] + post, key) == Field(pre + post, key)
    decreases |post|
  {
    if |post| == 0 {
      assert (pre + [m] + post)[..|pre| + 1 - 1] == pre;
      assert pre + post == pre;
    } else {
      var n := |post| - 1;
      assert (pre + [m] + post)[..|pre + [m] + post| - 1] == pre + [m] + post[..n];
      assert (pre + post)[..|pre + post| - 1] == pre + post[..n];
      OtherKeyIgnored(pre, m, post[..n], key);
    }
  }

  /** A member whose key is not one of the four song keys leaves the record as it is. */
  lemma UnknownKeyIgnored(pre: seq<Member>, m: Member, post: seq<Member>)
    requires !IsSongKey(m.key)
    ensures SongOf(pre + [m] + post) == SongOf(pre + post)
  {
    OtherKeyIgnored(pre, m, post, "artist");
    OtherKeyIgnored(pre, m, post, "title");
    OtherKeyIgnored(pre, m, post, "path");
    OtherKeyIgnored(pre, m, post, "cover");
  }

  /** When a key repeats, the last string given for it wins. */
  lemma {:induction false} LastValueWins(pre: seq<Member>, key: string, s: string, post: seq<Member>)
    requires forall i :: 0 <= i < |post| ==> post[i].key != key
    ensures Field(pre + [Member(key, JString(s))] + post, key) == s
    decreases |post|
  {
    var all := pre + [Member(key, JString(s))] + post;
    if |post| > 0 {
      var n := |post| - 1;
      assert all[..|all| - 1] == pre + [Member(key, JString(s))] + post[..n];
      LastValueWins(pre, key, s, post[..n]);
    }
  }

  /** Without a `numberOfSongs` member the count keeps its previous value. */
  lemma {:induction false} CountKeptWhenUndeclared(members: seq<Member>, previous: int)
    requires TopMembersOk(members)
    requires forall i :: 0 <= i < |members| ==> members[i].key != "numberOfSongs"
    ensures DeclaredCount(members, previous) == previous
    decreases |members|
  {
    if |members| > 0 {
      var n := |members| - 1;
      assert TopMembersOk(members[..n]);
      CountKeptWhenUndeclared(members[..n], previous);
    }
  }

  /** Two `songs` arrays contribute their records one after the other. */
  lemma {:induction false} AllSongsAppend(a: seq<Member>, b: seq<Member>)
    requires TopMembersOk(a) && TopMembersOk(b)
    ensures TopMembersOk(a + b)
    ensures AllSongs(a + b) == AllSongs(a) + AllSongs(b)
    decreases |b|
  {
    var ab := a + b;
    assert TopMembersOk(ab) by {
      forall i | 0 <= i < |ab| ensures TopMemberOk(ab[i]) {
        if i >= |a| { assert ab[i] == b[i - |a|]; }
      }
    }
    if |b| == 0 {
      assert ab == a;
    } else {
      var n := |b| - 1;
      var init := b[..n];
      assert ab[..|ab| - 1] == a + init;
      assert ab[|ab| - 1] == b[n];
      assert TopMembersOk(init) by {
        forall i | 0 <= i < |init| ensures TopMemberOk(init[i]) { assert init[i] == b[i]; }
      }
      AllSongsAppend(a, init);
    }
  }

  /** The declared count is not checked against the songs actually read. */
  lemma CountIsNotChecked()
    ensures var doc := [Member("numberOfSongs", JInt(5)), Member("songs", JArray([]))];
            TopMembersOk(doc) && DeclaredCount(doc, 0) == 5 && AllSongs(doc) == []
  {
    var doc := [Member("numberOfSongs", JInt(5)), Member("songs", JArray([]))];
    assert doc[..1] == [Member("numberOfSongs", JInt(5))];
    assert doc[..1][..0] == [];
  }
}
