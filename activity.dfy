/**
 * The reader's bookmarks, reading history and profile, kept in memory and mirrored as plain JSON
 * in the unencrypted key-value layer under one key each.
 */
module Activity {
  import opened Wrappers
  import opened Codecs
  import KeyValue

  const BOOKMARKS_KEY := "user_bookmarks"
  const HISTORY_KEY := "user_history"
  const PROFILE_KEY := "user_profile"

  /** The history keeps the most recent 50 articles. */
  const HISTORY_LIMIT: nat := 50

  datatype NewsItem = NewsItem(
    id: string,
    title: string,
    content: string,
    category: string,
    publishedAt: string,
    imageUrl: Option<string>,
    source: Option<string>)

  datatype Profile = Profile(name: string, bio: string, avatar: Option<string>)

  /** A partial profile: a field is present when it is Some. */
  datatype ProfileUpdate = ProfileUpdate(name: Option<string>, bio: Option<string>, avatar: Option<Option<string>>)

  const DEFAULT_PROFILE := Profile("Reader", "News enthusiast", None)

  /** `list.some(b => b.id === id)` */
  function HasId(s: seq<NewsItem>, id: string): (r: bool)
    ensures r <==> exists i :: 0 <= i < |s| && s[i].id == id
  {
    if s == [] then false
    else s[0].id == id || HasId(s[1..], id)
  }

  /** `list.filter(b => b.id !== id)` */
  function WithoutId(s: seq<NewsItem>, id: string): (r: seq<NewsItem>)
    ensures |r| <= |s|
    ensures forall x :: x in r <==> x in s && x.id != id
  {
    if s == [] then []
    else if s[0].id == id then WithoutId(s[1..], id)
    else [s[0]] + WithoutId(s[1..], id)
  }

  /** The filter keeps every other entry as often as it occurs, and drops every entry with the id. */
  lemma {:induction false} WithoutIdCounts(s: seq<NewsItem>, id: string)
    ensures forall x :: multiset(WithoutId(s, id))[x] == if x.id == id then 0 else multiset(s)[x]
    decreases |s|
  {
    if s != [] {
      WithoutIdCounts(s[1..], id);
      assert s == [s[0]] + s[1..];
    }
  }

  /** Nothing with the removed id is left. */
  lemma WithoutIdHasNone(s: seq<NewsItem>, id: string)
    ensures !HasId(WithoutId(s, id), id)
  {
  }

  /** Filtering keeps order: it distributes over concatenation. */
  lemma {:induction false} WithoutIdAppend(a: seq<NewsItem>, b: seq<NewsItem>, id: string)
    ensures WithoutId(a + b, id) == WithoutId(a, id) + WithoutId(b, id)
    decreases |a|
  {
    if a != [] {
      assert (a + b)[0] == a[0] && (a + b)[1..] == a[1..] + b;
      WithoutIdAppend(a[1..], b, id);
      if a[0].id != id {
        calc {
          WithoutId(a + b, id);
          [a[0]] + WithoutId(a[1..] + b, id);
          [a[0]] + (WithoutId(a[1..], id) + WithoutId(b, id));
          ([a[0]] + WithoutId(a[1..], id)) + WithoutId(b, id);
        }
      }
    } else {
      assert a + b == b;
    }
  }

  /** Filtering out an id that is not there changes nothing. */
  lemma {:induction false} WithoutIdAbsent(s: seq<NewsItem>, id: string)
    requires !HasId(s, id)
    ensures WithoutId(s, id) == s
    decreases |s|
  {
    if s != [] {
      WithoutIdAbsent(s[1..], id);
    }
  }

  /** Filtering an article's id removes exactly the entries with that id. */
  lemma {:induction false} WithoutIdShrinks(s: seq<NewsItem>, id: string)
    requires HasId(s, id)
    ensures |WithoutId(s, id)| < |s|
    decreases |s|
  {
    if s[0].id != id {
      assert HasId(s[1..], id);
      WithoutIdShrinks(s[1..], id);
    }
  }

  /** toggleBookmark: remove every entry with the article's id, or put the article first. */
  function Toggled(bookmarks: seq<NewsItem>, article: NewsItem): (r: seq<NewsItem>)
    ensures HasId(r, article.id) <==> !HasId(bookmarks, article.id)
    ensures !HasId(bookmarks, article.id) ==> r == [article] + bookmarks
    ensures HasId(bookmarks, article.id) ==>
              |r| < |bookmarks| && forall x :: x in r <==> x in bookmarks && x.id != article.id
    ensures HasId(bookmarks, article.id) ==> r == WithoutId(bookmarks, article.id)
  {
    if HasId(bookmarks, article.id) then
      WithoutIdHasNone(bookmarks, article.id);
      WithoutIdShrinks(bookmarks, article.id);
      WithoutId(bookmarks, article.id)
    else [article] + bookmarks
  }

  /** Toggling an article that was not bookmarked twice restores the list. */
  lemma ToggleTwice(bookmarks: seq<NewsItem>, article: NewsItem)
    requires !HasId(bookmarks, article.id)
    ensures Toggled(Toggled(bookmarks, article), article) == bookmarks
  {
    assert ([article] + bookmarks)[1..] == bookmarks;
    WithoutIdAbsent(bookmarks, article.id);
  }

  /** Removing a bookmark drops only the entries with its id, and keeps every other one as often as it occurs. */
  lemma ToggleRemovesOnly(bookmarks: seq<NewsItem>, article: NewsItem)
    requires HasId(bookmarks, article.id)
    ensures forall x :: multiset(Toggled(bookmarks, article))[x] ==
                        if x.id == article.id then 0 else multiset(bookmarks)[x]
  {
    WithoutIdCounts(bookmarks, article.id);
  }

  /** Removing a bookmark keeps the other bookmarks in their order. */
  lemma ToggleKeepsOrder(before: seq<NewsItem>, after: seq<NewsItem>, article: NewsItem)
    requires HasId(before + after, article.id)
    ensures Toggled(before + after, article) == WithoutId(before, article.id) + WithoutId(after, article.id)
  {
    WithoutIdAppend(before, after, article.id);
  }

  /** addToHistory: the article first, every older entry with its id dropped, at most 50 entries. */
  function Recorded(history: seq<NewsItem>, article: NewsItem): (r: seq<NewsItem>)
    ensures 0 < |r| <= HISTORY_LIMIT && r[0] == article
    ensures forall i :: 1 <= i < |r| ==> r[i].id != article.id
    ensures r[1..] <= WithoutId(history, article.id)
    ensures |r| == if 1 + |WithoutId(history, article.id)| < HISTORY_LIMIT
                   then 1 + |WithoutId(history, article.id)| else HISTORY_LIMIT
  {
    var filtered := WithoutId(history, article.id);
    var all := [article] + filtered;
    var r := if |all| <= HISTORY_LIMIT then all else all[..HISTORY_LIMIT];
    assert r[1..] <= filtered by {
      assert r[1..] == filtered[..|r| - 1];
    }
    assert forall i :: 1 <= i < |r| ==> r[i] == filtered[i - 1];
    assert forall i :: 1 <= i < |r| ==> r[i] in filtered;
    r
  }

  /** Reading the same article again changes nothing. */
  lemma AddToHistoryIdempotent(history: seq<NewsItem>, article: NewsItem)
    ensures Recorded(Recorded(history, article), article) == Recorded(history, article)
  {
    var once := Recorded(history, article);
    var tail := once[1..];
    assert once == [article] + tail;
    WithoutIdAbsent(tail, article.id);
    assert WithoutId(once, article.id) == tail;
  }

  /** No two entries share an id. */
  predicate DistinctIds(s: seq<NewsItem>) {
    forall i, j :: 0 <= i < j < |s| ==> s[i].id != s[j].id
  }

  lemma {:induction false} WithoutIdDistinct(s: seq<NewsItem>, id: string)
    requires DistinctIds(s)
    ensures DistinctIds(WithoutId(s, id))
    decreases |s|
  {
    if s != [] {
      var rest := WithoutId(s[1..], id);
      assert DistinctIds(s[1..]) by {
        forall i, j | 0 <= i < j < |s[1..]| ensures s[1..][i].id != s[1..][j].id {
          assert s[1..][i] == s[i + 1] && s[1..][j] == s[j + 1];
        }
      }
      WithoutIdDistinct(s[1..], id);
      if s[0].id != id {
        forall k | 0 <= k < |rest| ensures rest[k].id != s[0].id {
          assert rest[k] in s[1..];
          var m :| 0 <= m < |s[1..]| && s[1..][m] == rest[k];
          assert s[m + 1] == rest[k];
        }
        assert WithoutId(s, id) == [s[0]] + rest;
      }
    }
  }

  /** The history never holds the same article twice once it does not to begin with. */
  lemma AddToHistoryDistinct(history: seq<NewsItem>, article: NewsItem)
    requires DistinctIds(history)
    ensures DistinctIds(Recorded(history, article))
  {
    var r := Recorded(history, article);
    var filtered := WithoutId(history, article.id);
    WithoutIdDistinct(history, article.id);
    assert r[1..] <= filtered;
    forall i, j | 0 <= i < j < |r| ensures r[i].id != r[j].id {
      if i > 0 {
        assert r[i] == filtered[i - 1] && r[j] == filtered[j - 1];
      }
    }
  }

  /** `{ ...profile, ...update }`: every present field from the update, the others kept. */
  function Merge(p: Profile, u: ProfileUpdate): (r: Profile)
    ensures r.name == (if u.name.Some? then u.name.value else p.name)
    ensures r.bio == (if u.bio.Some? then u.bio.value else p.bio)
    ensures r.avatar == (if u.avatar.Some? then u.avatar.value else p.avatar)
  {
    Profile(
      match u.name case Some(n) => n case None => p.name,
      match u.bio case Some(b) => b case None => p.bio,
      match u.avatar case Some(a) => a case None => p.avatar)
  }

  /** The update that applies `first`, then `second`. */
  function Then(first: ProfileUpdate, second: ProfileUpdate): ProfileUpdate {
    ProfileUpdate(
      if second.name.Some? then second.name else first.name,
      if second.bio.Some? then second.bio else first.bio,
      if second.avatar.Some? then second.avatar else first.avatar)
  }

  /** Applying an update twice is applying it once; two updates compose into one. */
  lemma MergeLaws(p: Profile, u: ProfileUpdate, v: ProfileUpdate)
    ensures Merge(Merge(p, u), u) == Merge(p, u)
    ensures Merge(Merge(p, u), v) == Merge(p, Then(u, v))
    ensures Merge(p, ProfileUpdate(None, None, None)) == p
  {
  }

  /**
   * One stored list or profile as loadData treats it: an absent or empty entry keeps the current
   * value (Some(current)); a present one is parsed (None: JSON.parse threw).
   */
  function Loaded<T>(current: T, entries: map<string, string>, key: string, parse: string -> Option<T>): (r: Option<T>)
    ensures key !in entries || entries[key] == "" ==> r == Some(current)
    ensures key in entries && entries[key] != "" ==> r == parse(entries[key])
  {
    if key !in entries || entries[key] == "" then Some(current) else parse(entries[key])
  }

  /** The user-activity state over the shared key-value layer. */
  class UserActivity {
    var bookmarks: seq<NewsItem>
    var history: seq<NewsItem>
    var profile: Profile
    const disk: KeyValue.KvStore
    const items: Codec<seq<NewsItem>>
    const profiles: Codec<Profile>

    constructor (disk: KeyValue.KvStore, items: Codec<seq<NewsItem>>, profiles: Codec<Profile>)
      ensures this.disk == disk && this.items == items && this.profiles == profiles
      ensures bookmarks == [] && history == [] && profile == DEFAULT_PROFILE
    {
      this.disk := disk;
      this.items := items;
      this.profiles := profiles;
      bookmarks, history, profile := [], [], DEFAULT_PROFILE;
    }

    /**
     * loadData: the three reads come first (a rejected read aborts everything); then each present
     * entry is parsed and adopted in turn, and the first that does not parse stops the rest.
     */
    method LoadData(readOk: bool)
      modifies this
      ensures unchanged(disk)
      ensures var b := Loaded(old(bookmarks), disk.entries, BOOKMARKS_KEY, items.parse);
              var h := Loaded(old(history), disk.entries, HISTORY_KEY, items.parse);
              var p := Loaded(old(profile), disk.entries, PROFILE_KEY, profiles.parse);
              && bookmarks == (if readOk && b.Some? then b.value else old(bookmarks))
              && history == (if readOk && b.Some? && h.Some? then h.value else old(history))
              && profile == (if readOk && b.Some? && h.Some? && p.Some? then p.value else old(profile))
    {
      if !readOk {
        return;
      }
      var b := Loaded(bookmarks, disk.entries, BOOKMARKS_KEY, items.parse);
      if b.None? {
        return;
      }
      bookmarks := b.value;
      var h := Loaded(history, disk.entries, HISTORY_KEY, items.parse);
      if h.None? {
        return;
      }
      history := h.value;
      var p := Loaded(profile, disk.entries, PROFILE_KEY, profiles.parse);
      if p.None? {
        return;
      }
      profile := p.value;
    }

    /** The state is set first; the write is not awaited, so its failure changes nothing here. */
    method SaveBookmarks(newBookmarks: seq<NewsItem>, writeOk: bool)
      modifies this`bookmarks, disk
      ensures bookmarks == newBookmarks
      ensures disk.entries == if writeOk then old(disk.entries)[BOOKMARKS_KEY := items.stringify(newBookmarks)]
                              else old(disk.entries)
    {
      bookmarks := newBookmarks;
      if writeOk {
        disk.entries := disk.entries[BOOKMARKS_KEY := items.stringify(newBookmarks)];
      }
    }

    method SaveHistory(newHistory: seq<NewsItem>, writeOk: bool)
      modifies this`history, disk
      ensures history == newHistory
      ensures disk.entries == if writeOk then old(disk.entries)[HISTORY_KEY := items.stringify(newHistory)]
                              else old(disk.entries)
    {
      history := newHistory;
      if writeOk {
        disk.entries := disk.entries[HISTORY_KEY := items.stringify(newHistory)];
      }
    }

    method SaveProfile(newProfile: Profile, writeOk: bool)
      modifies this`profile, disk
      ensures profile == newProfile
      ensures disk.entries == if writeOk then old(disk.entries)[PROFILE_KEY := profiles.stringify(newProfile)]
                              else old(disk.entries)
    {
      profile := newProfile;
      if writeOk {
        disk.entries := disk.entries[PROFILE_KEY := profiles.stringify(newProfile)];
      }
    }

    method ToggleBookmark(article: NewsItem, writeOk: bool)
      modifies this`bookmarks, disk
      ensures bookmarks == Toggled(old(bookmarks), article)
      ensures disk.entries == if writeOk then old(disk.entries)[BOOKMARKS_KEY := items.stringify(bookmarks)]
                              else old(disk.entries)
    {
      SaveBookmarks(Toggled(bookmarks, article), writeOk);
    }

    function IsBookmarked(id: string): (r: bool)
      reads this
      ensures r <==> exists i :: 0 <= i < |bookmarks| && bookmarks[i].id == id
    {
      HasId(bookmarks, id)
    }

    method AddToHistory(article: NewsItem, writeOk: bool)
      modifies this`history, disk
      ensures history == Recorded(old(history), article)
      ensures disk.entries == if writeOk then old(disk.entries)[HISTORY_KEY := items.stringify(history)]
                              else old(disk.entries)
    {
      SaveHistory(Recorded(history, article), writeOk);
    }

    method UpdateProfile(update: ProfileUpdate, writeOk: bool)
      modifies this`profile, disk
      ensures profile == Merge(old(profile), update)
      ensures disk.entries == if writeOk then old(disk.entries)[PROFILE_KEY := profiles.stringify(profile)]
                              else old(disk.entries)
    {
      SaveProfile(Merge(profile, update), writeOk);
    }

    method ClearHistory(writeOk: bool)
      modifies this`history, disk
      ensures history == [] && bookmarks == old(bookmarks) && profile == old(profile)
      ensures disk.entries == if writeOk then old(disk.entries)[HISTORY_KEY := items.stringify([])]
                              else old(disk.entries)
    {
      SaveHistory([], writeOk);
    }

    /**
     * clearAllData: the three keys are removed in turn; `failAt` is the removal that rejects
     * (3 or more: none), which leaves the rest and the in-memory state as they were.
     */
    method ClearAllData(failAt: nat) returns (ok: bool)
      modifies this, disk
      ensures ok == (failAt >= 3)
      ensures disk.entries == old(disk.entries) -
                (if failAt == 0 then {} else if failAt == 1 then {BOOKMARKS_KEY}
                 else if failAt == 2 then {BOOKMARKS_KEY, HISTORY_KEY}
                 else {BOOKMARKS_KEY, HISTORY_KEY, PROFILE_KEY})
      ensures ok ==> bookmarks == [] && history == [] && profile == DEFAULT_PROFILE
      ensures !ok ==> bookmarks == old(bookmarks) && history == old(history) && profile == old(profile)
    {
      ok := false;
      if failAt == 0 {
        return;
      }
      disk.entries := disk.entries - {BOOKMARKS_KEY};
      if failAt == 1 {
        return;
      }
      disk.entries := disk.entries - {HISTORY_KEY};
      if failAt == 2 {
        return;
      }
      disk.entries := disk.entries - {PROFILE_KEY};
      bookmarks, history, profile := [], [], DEFAULT_PROFILE;
      ok := true;
    }
  }

  /** What a save wrote is what the next load adopts, given a lawful codec. */
  lemma SavedBookmarksReload(entries: map<string, string>, current: seq<NewsItem>, saved: seq<NewsItem>, items: Codec<seq<NewsItem>>)
    requires Lawful(items)
    ensures Loaded(current, entries[BOOKMARKS_KEY := items.stringify(saved)], BOOKMARKS_KEY, items.parse) == Some(saved)
  {
    StringifyNonEmpty(items, saved);
  }
}
