/** The community hub row of the home feed (components/StoriesTray.tsx): communities of the current circle, a
    ring for communities with unseen stories, and the bookkeeping of which stories were seen. The seen set is a
    JavaScript `Set`, which keeps insertion order and no duplicates; it is modelled as a duplicate-free sequence,
    which is also the array persisted under the key "seenStories". */
module StoriesTray {
  import opened Options
  import opened Seqs
  import opened Database

  const SeenStoriesKey := "seenStories"

  datatype Community = Community(
    id: string,
    name: string,
    image: string,
    stories: seq<Story>,
    circleId: Option<string>)

  predicate NoDuplicates(s: seq<string>) {
    forall i, j :: 0 <= i < j < |s| ==> s[i] != s[j]
  }

  /** `community.stories.findIndex(s => !seen.has(s.id))`, with -1 as None. */
  function FirstUnseen(stories: seq<Story>, seen: seq<string>): (r: Option<nat>)
    ensures r.Some? ==> r.value < |stories| && stories[r.value].id !in seen
    ensures r.Some? ==> forall j :: 0 <= j < r.value ==> stories[j].id in seen
    ensures r.None? ==> forall j :: 0 <= j < |stories| ==> stories[j].id in seen
  {
    if stories == [] then None
    else if stories[0].id !in seen then Some(0)
    else match FirstUnseen(stories[1..], seen)
      case None => None
      case Some(k) => Some(k + 1)
  }

  /** The index the viewer opens at: the first unseen story, or the first story when all were seen. */
  function StartIndex(stories: seq<Story>, seen: seq<string>): (r: nat)
    ensures stories != [] ==> r < |stories|
    ensures (exists i :: 0 <= i < |stories| && stories[i].id !in seen) ==>
              stories[r].id !in seen && forall j :: 0 <= j < r ==> stories[j].id in seen
    ensures (forall i :: 0 <= i < |stories| ==> stories[i].id in seen) ==> r == 0
  {
    match FirstUnseen(stories, seen)
    case None => 0
    case Some(k) => k
  }

  /** `stories.some(s => !seen.has(s.id))` */
  function AnyUnseen(stories: seq<Story>, seen: seq<string>): (b: bool)
    ensures b <==> exists i :: 0 <= i < |stories| && stories[i].id !in seen
  {
    if stories == [] then false
    else if stories[0].id !in seen then true
    else
      var b := AnyUnseen(stories[1..], seen);
      assert b ==> exists i :: 0 <= i < |stories| && stories[i].id !in seen by {
        if b {
          var i :| 0 <= i < |stories[1..]| && stories[1..][i].id !in seen;
          assert stories[i + 1].id !in seen;
        }
      }
      b
  }

  /** `hasUnseenStories`: the ring is coloured exactly when some story of the community is unseen. */
  function HasUnseenStories(c: Community, seen: seq<string>): (b: bool)
    ensures c.stories == [] ==> !b
    ensures b <==> exists i :: 0 <= i < |c.stories| && c.stories[i].id !in seen
  {
    if |c.stories| == 0 then false else AnyUnseen(c.stories, seen)
  }

  /** A coloured ring means the viewer opens on a story not seen yet. */
  lemma UnseenRingOpensUnseen(c: Community, seen: seq<string>)
    requires HasUnseenStories(c, seen)
    ensures StartIndex(c.stories, seen) < |c.stories|
    ensures c.stories[StartIndex(c.stories, seen)].id !in seen
  {
  }

  /** Three stories with the first one seen open at the second. */
  lemma StartsAtFirstUnseenExample(a: Story, b: Story, c: Story)
    requires a.id != b.id
    ensures StartIndex([a, b, c], [a.id]) == 1
  {
    assert [a, b, c][1].id !in [a.id];
  }

  /** `new Set(prev).add(id)` */
  function AddSeen(seen: seq<string>, id: string): (r: seq<string>)
    ensures NoDuplicates(seen) ==> NoDuplicates(r)
    ensures forall x :: x in r <==> x in seen || x == id
    ensures seen <= r
  {
    if id in seen then seen else seen + [id]
  }

  /** Adding an id that is already there changes nothing, so adding twice is adding once. */
  lemma AddSeenIdempotent(seen: seq<string>, id: string)
    ensures id in seen ==> AddSeen(seen, id) == seen
    ensures AddSeen(AddSeen(seen, id), id) == AddSeen(seen, id)
  {
  }

  /** The seen set after a run of `onStorySeen` calls. */
  function AddAllSeen(seen: seq<string>, ids: seq<string>): (r: seq<string>)
    ensures NoDuplicates(seen) ==> NoDuplicates(r)
    ensures forall x :: x in r <==> x in seen || x in ids
    decreases |ids|
  {
    if ids == [] then seen else AddAllSeen(AddSeen(seen, ids[0]), ids[1..])
  }

  /** `new Set(JSON.parse(saved))`: the first copy of each id, in order. */
  function Dedup(ids: seq<string>): (r: seq<string>)
    ensures NoDuplicates(r)
    ensures forall x :: x in r <==> x in ids
  {
    AddAllSeen([], ids)
  }

  /** A duplicate-free array reads back as itself: persisting the set and loading it again is lossless. */
  lemma {:induction false} DedupOfSet(seen: seq<string>, prefix: seq<string>)
    requires NoDuplicates(prefix + seen)
    ensures AddAllSeen(prefix, seen) == prefix + seen
    decreases |seen|
  {
    if seen != [] {
      assert seen[0] !in prefix by {
        assert (prefix + seen)[|prefix|] == seen[0];
        forall k | 0 <= k < |prefix| ensures prefix[k] != seen[0] {
          assert (prefix + seen)[k] == prefix[k];
        }
      }
      assert AddSeen(prefix, seen[0]) == prefix + [seen[0]];
      assert (prefix + [seen[0]]) + seen[1..] == prefix + seen;
      DedupOfSet(seen[1..], prefix + [seen[0]]);
    }
  }

  lemma PersistRoundTrip(seen: seq<string>)
    requires NoDuplicates(seen)
    ensures Dedup(seen) == seen
  {
    DedupOfSet(seen, []);
  }

  /** The circle filter effect: no current circle (or an empty id) keeps every community. */
  function FilterCommunities(communities: seq<Community>, currentCircleId: Option<string>): (r: seq<Community>)
    ensures currentCircleId.None? || currentCircleId.value == [] ==> r == communities
    ensures |r| <= |communities|
  {
    if currentCircleId.None? || currentCircleId.value == [] then communities
    else Filter(communities, (c: Community) => c.circleId == currentCircleId)
  }

  /** Otherwise exactly the communities of that circle are kept, in their original order. */
  lemma FilterCommunitiesSpec(communities: seq<Community>, id: string, c: Community)
    requires id != []
    ensures c in FilterCommunities(communities, Some(id)) <==> c in communities && c.circleId == Some(id)
    ensures IsSubsequence(FilterCommunities(communities, Some(id)), communities)
  {
    FilterMembers(communities, (c: Community) => c.circleId == Some(id), c);
    FilterIsSubsequence(communities, (c: Community) => c.circleId == Some(id));
  }

  /** A circle that no community is associated with leaves the tray empty, so only the empty-state panel
      shows. */
  lemma UnknownCircleEmptiesTray(communities: seq<Community>, id: string)
    requires id != []
    requires forall c :: c in communities ==> c.circleId != Some(id)
    ensures FilterCommunities(communities, Some(id)) == []
  {
    FilterNone(communities, (c: Community) => c.circleId == Some(id));
  }

  class Tray {
    var communities: seq<Community>
    var filteredCommunities: seq<Community>
    var seen: seq<string>
    var viewerOpen: bool
    var activeStories: seq<Story>
    var initialStoryIndex: int
    /** The array stored under "seenStories", if any. */
    var persisted: Option<seq<string>>

    ghost predicate Valid()
      reads this
    {
      && NoDuplicates(seen)
      && (activeStories != [] ==> 0 <= initialStoryIndex < |activeStories|)
    }

    /** Mounting: the communities are set and the saved seen ids, if any, are loaded. */
    constructor(loaded: seq<Community>, saved: Option<seq<string>>)
      ensures Valid()
      ensures communities == loaded && filteredCommunities == []
      ensures seen == (if saved.Some? then Dedup(saved.value) else [])
      ensures !viewerOpen && activeStories == [] && initialStoryIndex == 0 && persisted == saved
    {
      communities := loaded;
      filteredCommunities := [];
      seen := if saved.Some? then Dedup(saved.value) else [];
      viewerOpen := false;
      activeStories := [];
      initialStoryIndex := 0;
      persisted := saved;
    }

    method FilterEffect(currentCircleId: Option<string>)
      modifies this`filteredCommunities
      ensures filteredCommunities == FilterCommunities(communities, currentCircleId)
    {
      if currentCircleId.None? || currentCircleId.value == [] {
        filteredCommunities := communities;
      } else {
        filteredCommunities := Filter(communities, (c: Community) => c.circleId == currentCircleId);
      }
    }

    /** `handleStoryClick`: a community without stories does nothing; otherwise the viewer opens on its stories
        at the first unseen one. */
    method StoryClick(c: Community)
      requires Valid()
      modifies this`activeStories, this`initialStoryIndex, this`viewerOpen
      ensures Valid()
      ensures c.stories == [] ==>
        activeStories == old(activeStories) && initialStoryIndex == old(initialStoryIndex)
        && viewerOpen == old(viewerOpen)
      ensures c.stories != [] ==>
        activeStories == c.stories && initialStoryIndex == StartIndex(c.stories, seen) && viewerOpen
    {
      if |c.stories| == 0 {
        return;
      }
      var startIndex := StartIndex(c.stories, seen);
      activeStories := c.stories;
      initialStoryIndex := startIndex;
      viewerOpen := true;
    }

    /** `handleStorySeen`: add the id and persist the whole set. */
    method StorySeen(id: string)
      requires Valid()
      modifies this`seen, this`persisted
      ensures Valid()
      ensures seen == AddSeen(old(seen), id) && persisted == Some(seen)
    {
      seen := AddSeen(seen, id);
      persisted := Some(seen);
    }

    /** The viewer's `onClose`. */
    method CloseViewer()
      modifies this`viewerOpen
      ensures !viewerOpen
    {
      viewerOpen := false;
    }

    /** The viewer is mounted only in the tray's second return: while some community is shown, and open with
        stories; it then gets a valid initial index. With no community shown the empty-state panel is returned
        instead, which unmounts an open viewer. */
    predicate ViewerShown()
      reads this
    {
      filteredCommunities != [] && viewerOpen && |activeStories| > 0
    }

    /** An empty community list hides the viewer, however it was left open. */
    lemma EmptyTrayHidesViewer()
      requires filteredCommunities == []
      ensures !ViewerShown()
    {
    }

    lemma ShownViewerHasValidIndex()
      requires Valid() && ViewerShown()
      ensures 0 <= initialStoryIndex < |activeStories|
    {
    }
  }
}
