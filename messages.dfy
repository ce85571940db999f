/** The conversation list (src_pages/Messages.tsx): which participant is "the other one", the stand-in profile
    when that user cannot be loaded, the relative time label and the unread badge. The backend, the clock and
    the locale's date rendering are parameters. */
module Messages {
  import opened Options
  import opened Text
  import opened Decimal
  import opened Database

  /** `c.participant1_id === userId ? c.participant2_id : c.participant1_id` */
  function OtherId(c: Conversation, userId: string): (r: string)
    ensures r == c.participant1Id || r == c.participant2Id
    ensures c.participant1Id == userId ==> r == c.participant2Id
    ensures c.participant1Id != userId ==> r == c.participant1Id
  {
    if c.participant1Id == userId then c.participant2Id else c.participant1Id
  }

  /** In a conversation between two different users that includes the viewer, the other id is not the viewer's
      and is the viewer's partner. */
  lemma OtherIdIsPartner(c: Conversation, userId: string)
    requires c.participant1Id != c.participant2Id
    requires userId == c.participant1Id || userId == c.participant2Id
    ensures OtherId(c, userId) != userId
    ensures userId == c.participant2Id ==> OtherId(c, userId) == c.participant1Id
  {
  }

  /** The stand-in profile built before the `app_user` lookup: "User " and the first four characters of the
      id, an avatar generated from the id, and the city "Unknown". */
  function FallbackUser(otherId: string): (r: AppUser)
    ensures r.id == otherId && r.city == "Unknown"
    ensures |r.name| == 5 + (if |otherId| < 4 then |otherId| else 4)
    ensures r.name[..5] == "User " && IsPrefix(r.name[5..], otherId)
    ensures StartsWith(r.avatarUrl, "https://ui-avatars.com/api/?name=")
  {
    var url := "https://ui-avatars.com/api/?name=" + otherId;
    assert url[..|"https://ui-avatars.com/api/?name="|] == "https://ui-avatars.com/api/?name=";
    AppUser(otherId, "User " + Take(otherId, 4), "Unknown", "", 0.0, 0, url)
  }

  /** The two fallback names coincide only when the ids agree on their first four characters. */
  lemma FallbackNamesDistinguish(a: string, b: string)
    ensures FallbackUser(a).name == FallbackUser(b).name <==> Take(a, 4) == Take(b, 4)
  {
    var na, nb := FallbackUser(a).name, FallbackUser(b).name;
    if na == nb {
      assert na[5..] == Take(a, 4) && nb[5..] == Take(b, 4);
    }
  }

  /** One row of the enriched list: the loaded profile of the other participant when there is one, else the
      stand-in. */
  function Enrich(c: Conversation, userId: string, lookup: string -> Option<AppUser>): (r: Conversation)
    ensures r == c.(otherUser := r.otherUser)
    ensures r.otherUser.Some?
    ensures lookup(OtherId(c, userId)).Some? ==> r.otherUser == lookup(OtherId(c, userId))
    ensures lookup(OtherId(c, userId)).None? ==> r.otherUser == Some(FallbackUser(OtherId(c, userId)))
  {
    var otherId := OtherId(c, userId);
    var u := lookup(otherId);
    c.(otherUser := if u.Some? then u else Some(FallbackUser(otherId)))
  }

  /** `data.map(...)`, the enriched list in the server's order. */
  function EnrichAll(cs: seq<Conversation>, userId: string, lookup: string -> Option<AppUser>)
    : (r: seq<Conversation>)
    ensures |r| == |cs|
    ensures forall i :: 0 <= i < |cs| ==> r[i] == Enrich(cs[i], userId, lookup)
  {
    if cs == [] then [] else [Enrich(cs[0], userId, lookup)] + EnrichAll(cs[1..], userId, lookup)
  }

  /** The buckets of `formatTime`. */
  datatype Age = JustNow | MinutesAgo(minutes: nat) | HoursAgo(hours: nat) | OnDate

  /** The bucket for a message `ageMs` milliseconds old (negative for a time in the future): under a minute,
      whole minutes under an hour, whole hours under a day, else the date. */
  function AgeOf(ageMs: int): (r: Age)
    ensures r.JustNow? <==> ageMs < 60000
    ensures r.MinutesAgo? <==> 60000 <= ageMs < 3600000
    ensures r.HoursAgo? <==> 3600000 <= ageMs < 86400000
    ensures r.OnDate? <==> 86400000 <= ageMs
    ensures r.MinutesAgo? ==> 1 <= r.minutes < 60 && r.minutes * 60000 <= ageMs < (r.minutes + 1) * 60000
    ensures r.HoursAgo? ==> 1 <= r.hours < 24 && r.hours * 3600000 <= ageMs < (r.hours + 1) * 3600000
  {
    if ageMs < 60000 then JustNow
    else if ageMs < 3600000 then MinutesAgo(ageMs / 60000)
    else if ageMs < 86400000 then HoursAgo(ageMs / 3600000)
    else OnDate
  }

  /** The order of the buckets. */
  function Rank(a: Age): nat {
    match a
    case JustNow => 0
    case MinutesAgo(m) => 1 + m
    case HoursAgo(h) => 60 + h
    case OnDate => 100
  }

  /** An older message never gets a label for a more recent time. */
  lemma AgeMonotone(older: int, newer: int)
    requires newer <= older
    ensures Rank(AgeOf(newer)) <= Rank(AgeOf(older))
  {
    var a, b := AgeOf(newer), AgeOf(older);
    if a.MinutesAgo? && b.MinutesAgo? {
      DivMonotone(newer, older, 60000);
    }
    if a.HoursAgo? && b.HoursAgo? {
      DivMonotone(newer, older, 3600000);
    }
  }

  lemma DivMonotone(a: int, b: int, d: int)
    requires 0 <= a <= b && 0 < d
    ensures a / d <= b / d
  {
    var k := b / d - a / d;
    assert k * d == (b - b % d) - (a - a % d);
  }

  /** The text of a bucket; the date text is the locale's rendering of the timestamp. */
  function Label(a: Age, dateText: string): (r: string)
    ensures a.JustNow? ==> r == "Just now"
  {
    match a
    case JustNow => "Just now"
    case MinutesAgo(m) => NatToString(m) + "m ago"
    case HoursAgo(h) => NatToString(h) + "h ago"
    case OnDate => dateText
  }

  /** `formatTime` */
  function FormatTime(ageMs: int, dateText: string): (r: string)
    ensures ageMs < 60000 ==> r == "Just now"
    ensures 60000 <= ageMs < 3600000 ==> r == NatToString(ageMs / 60000) + "m ago"
    ensures 3600000 <= ageMs < 86400000 ==> r == NatToString(ageMs / 3600000) + "h ago"
    ensures 86400000 <= ageMs ==> r == dateText
  {
    Label(AgeOf(ageMs), dateText)
  }

  /** Within the first day, different buckets never share a label: the label says how old the message is. */
  lemma LabelsDistinguishAges(x: int, y: int, dateText: string)
    requires x < 86400000 && y < 86400000
    ensures FormatTime(x, dateText) == FormatTime(y, dateText) <==> AgeOf(x) == AgeOf(y)
  {
    var a, b := AgeOf(x), AgeOf(y);
    var la, lb := Label(a, dateText), Label(b, dateText);
    if la == lb && a != b {
      LabelShape(a, dateText);
      LabelShape(b, dateText);
      if a.MinutesAgo? && b.MinutesAgo? {
        assert la[..|la| - 5] == NatToString(a.minutes);
        assert lb[..|lb| - 5] == NatToString(b.minutes);
        NatToStringInjective(a.minutes, b.minutes);
      } else if a.HoursAgo? && b.HoursAgo? {
        assert la[..|la| - 5] == NatToString(a.hours);
        assert lb[..|lb| - 5] == NatToString(b.hours);
        NatToStringInjective(a.hours, b.hours);
      }
    }
  }

  /** The fifth character from the end tells the units apart; "Just now" starts with a letter, the counts
      with a digit. */
  lemma LabelShape(a: Age, dateText: string)
    requires !a.OnDate?
    ensures var l := Label(a, dateText); |l| >= 6
    ensures a.JustNow? ==> Label(a, dateText)[0] == 'J' && Label(a, dateText)[|Label(a, dateText)| - 5] == 't'
    ensures a.MinutesAgo? ==>
      && IsDigit(Label(a, dateText)[0])
      && Label(a, dateText)[|Label(a, dateText)| - 5] == 'm'
      && Label(a, dateText)[..|Label(a, dateText)| - 5] == NatToString(a.minutes)
      && Label(a, dateText)[|Label(a, dateText)| - 5..] == "m ago"
    ensures a.HoursAgo? ==>
      && IsDigit(Label(a, dateText)[0])
      && Label(a, dateText)[|Label(a, dateText)| - 5] == 'h'
      && Label(a, dateText)[..|Label(a, dateText)| - 5] == NatToString(a.hours)
      && Label(a, dateText)[|Label(a, dateText)| - 5..] == "h ago"
  {
  }

  /** The badge shows the unread count when it is present and positive (0 and a missing count are falsy). */
  function UnreadBadge(c: Conversation): (r: Option<int>)
    ensures r.Some? <==> c.unreadCount.Some? && c.unreadCount.value > 0
    ensures r.Some? ==> r == c.unreadCount
  {
    if c.unreadCount.Some? && c.unreadCount.value > 0 then c.unreadCount else None
  }

  /** The name shown on a row: the other user's name, or "Unknown User" when it is missing or empty. */
  function DisplayName(c: Conversation): (r: string)
    ensures r != []
    ensures c.otherUser.Some? && c.otherUser.value.name != [] ==> r == c.otherUser.value.name
  {
    if c.otherUser.Some? && c.otherUser.value.name != [] then c.otherUser.value.name else "Unknown User"
  }

  /** Every enriched row has a display name taken from a profile: a fallback name is never empty. */
  lemma EnrichedRowsNamed(c: Conversation, userId: string, lookup: string -> Option<AppUser>)
    requires lookup(OtherId(c, userId)).None?
    ensures DisplayName(Enrich(c, userId, lookup)) == FallbackUser(OtherId(c, userId)).name
  {
  }

  /** The demo rows shown when the fetch fails: "Alice Baker", two minutes ago with one unread message, and
      "Charlie Solar", two hours ago with none. */
  function MockConversations(twoMinutesAgo: string, twoHoursAgo: string, now: string): (r: seq<Conversation>)
    ensures |r| == 2
    ensures UnreadBadge(r[0]) == Some(1) && UnreadBadge(r[1]).None?
    ensures OtherId(r[0], "current-user") == "u2" && OtherId(r[1], "current-user") == "u3"
  {
    [ Conversation("1", "current-user", "u2", "Is this still available? I can pick it up today.", twoMinutesAgo,
                   now, Some(AppUser("u2", "Alice Baker", "Brooklyn", "11201", 5.0, 200,
                                     "https://i.pravatar.cc/150?u=Alice")), Some(1)),
      Conversation("2", "u3", "current-user", "Thanks for the trade! The chair is perfect.", twoHoursAgo,
                   now, Some(AppUser("u3", "Charlie Solar", "Queens", "11101", 4.5, 50,
                                     "https://i.pravatar.cc/150?u=Charlie")), Some(0)) ]
  }

  class Inbox {
    var conversations: seq<Conversation>
    var loading: bool
    var currentUser: Option<string>
    var navigations: seq<string>

    constructor()
      ensures conversations == [] && loading && currentUser.None? && navigations == []
    {
      conversations := [];
      loading := true;
      currentUser := None;
      navigations := [];
    }

    /** The session lookup: the signed-in user's id, else "current-user" in either environment. */
    method ResolveUser(user: Option<string>)
      modifies this`currentUser
      ensures currentUser == Some(if user.Some? then user.value else "current-user")
    {
      if user.Some? {
        currentUser := user;
      } else {
        currentUser := Some("current-user");
      }
    }

    /** `fetchConversations`: the server's rows (already ordered by last message, newest first) enriched with
        the other participants, or the demo rows when the fetch fails; loading ends either way. */
    method Fetch(userId: string, rows: Option<seq<Conversation>>, lookup: string -> Option<AppUser>,
                 twoMinutesAgo: string, twoHoursAgo: string, now: string)
      modifies this`conversations, this`loading
      ensures !loading
      ensures rows.Some? ==> conversations == EnrichAll(rows.value, userId, lookup)
      ensures rows.None? ==> conversations == MockConversations(twoMinutesAgo, twoHoursAgo, now)
    {
      if rows.Some? {
        conversations := EnrichAll(rows.value, userId, lookup);
      } else {
        conversations := MockConversations(twoMinutesAgo, twoHoursAgo, now);
      }
      loading := false;
    }

    /** A tap on a row opens its chat. */
    method Open(c: Conversation)
      modifies this`navigations
      ensures navigations == old(navigations) + ["/messages/" + c.id]
    {
      navigations := navigations + ["/messages/" + c.id];
    }
  }
}
