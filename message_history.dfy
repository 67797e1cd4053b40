/** The message history pages of both roles: the list of conversations, the
    relative time of each last message, the task-status badge, the unread
    marker and the link into each chat. */
module MessageHistory {
  import opened Js
  import opened Web
  import Gateway
  import Market
  import Routes

  const LoadFailedMessage := "Unable to load message history"

  const MinuteMs := 60000
  const HourMs := 3600000
  const DayMs := 86400000

  /** What `formatTime` prints, before the numbers become text; `DateString`
      stands for the locale date. */
  datatype TimeLabel = JustNow | MinutesAgo(n: int) | HoursAgo(n: int) | DaysAgo(n: int) | DateString

  /** `formatTime` on the milliseconds between the message and now; the guards
      are tried in order on the floored minutes, hours and days. */
  function FormatTime(diffMs: int): (l: TimeLabel)
    ensures l.MinutesAgo? ==> 1 <= l.n <= 59
    ensures l.HoursAgo? ==> 1 <= l.n <= 23
    ensures l.DaysAgo? ==> 1 <= l.n <= 6
  {
    var mins := FloorDiv(diffMs, MinuteMs);
    var hours := FloorDiv(diffMs, HourMs);
    var days := FloorDiv(diffMs, DayMs);
    FloorBounds(diffMs, MinuteMs, mins);
    FloorBounds(diffMs, HourMs, hours);
    FloorBounds(diffMs, DayMs, days);
    if mins < 1 then JustNow
    else if mins < 60 then MinutesAgo(mins)
    else if hours < 24 then HoursAgo(hours)
    else if days < 7 then DaysAgo(days)
    else DateString
  }

  /** The guards carve the time line into contiguous ranges. A time in the
      future reads "Just now". */
  lemma FormatTimeRanges(diffMs: int)
    ensures FormatTime(diffMs) == JustNow <==> diffMs < MinuteMs
    ensures FormatTime(diffMs).MinutesAgo? <==> MinuteMs <= diffMs < HourMs
    ensures FormatTime(diffMs).HoursAgo? <==> HourMs <= diffMs < DayMs
    ensures FormatTime(diffMs).DaysAgo? <==> DayMs <= diffMs < 7 * DayMs
    ensures FormatTime(diffMs) == DateString <==> 7 * DayMs <= diffMs
  {
    var mins := FloorDiv(diffMs, MinuteMs);
    var hours := FloorDiv(diffMs, HourMs);
    var days := FloorDiv(diffMs, DayMs);
    FloorBounds(diffMs, MinuteMs, mins);
    FloorBounds(diffMs, HourMs, hours);
    FloorBounds(diffMs, DayMs, days);
  }

  /** The floored quotient against the thresholds the guards compare it with. */
  lemma FloorBounds(a: int, b: int, q: int)
    requires b > 0 && q == FloorDiv(a, b)
    ensures q < 1 <==> a < b
    ensures forall k: int {:trigger k * b} :: q < k <==> a < k * b
  {
    forall k: int
      ensures q < k <==> a < k * b
    {
      if q < k {
        assert (q + 1) * b <= k * b by { MulMono(q + 1, k, b); }
      } else {
        assert k * b <= q * b by { MulMono(k, q, b); }
      }
    }
  }

  lemma MulMono(x: int, y: int, b: int)
    requires x <= y && b > 0
    ensures x * b <= y * b
  {
    assert y * b - x * b == (y - x) * b;
  }

  /** Where a label sits from the most recent to the oldest. */
  function Rank(l: TimeLabel): nat {
    match l
    case JustNow => 0
    case MinutesAgo(_) => 1
    case HoursAgo(_) => 2
    case DaysAgo(_) => 3
    case DateString => 4
  }

  /** An older message never gets a more recent kind of label, and within a
      kind its number never shrinks. */
  lemma FormatTimeMonotone(a: int, b: int)
    requires a <= b
    ensures Rank(FormatTime(a)) <= Rank(FormatTime(b))
    ensures Rank(FormatTime(a)) == Rank(FormatTime(b)) && FormatTime(a).MinutesAgo? ==> FormatTime(a).n <= FormatTime(b).n
    ensures Rank(FormatTime(a)) == Rank(FormatTime(b)) && FormatTime(a).HoursAgo? ==> FormatTime(a).n <= FormatTime(b).n
    ensures Rank(FormatTime(a)) == Rank(FormatTime(b)) && FormatTime(a).DaysAgo? ==> FormatTime(a).n <= FormatTime(b).n
  {
    FormatTimeRanges(a);
    FormatTimeRanges(b);
    FloorMono(a, b, MinuteMs);
    FloorMono(a, b, HourMs);
    FloorMono(a, b, DayMs);
  }

  lemma FloorMono(a: int, b: int, d: int)
    requires a <= b && d > 0
    ensures FloorDiv(a, d) <= FloorDiv(b, d)
  {
    var p := FloorDiv(a, d);
    var q := FloorDiv(b, d);
    if q < p {
      MulMono(q + 1, p, d);
    }
  }

  /** The text shown, given the locale date for the oldest messages. */
  function Text(l: TimeLabel, localeDate: string): (s: string)
    requires l.MinutesAgo? || l.HoursAgo? || l.DaysAgo? ==> l.n >= 0
  {
    match l
    case JustNow => "Just now"
    case MinutesAgo(n) => Decimal(n) + " min ago"
    case HoursAgo(n) => Decimal(n) + " hr ago"
    case DaysAgo(n) => Decimal(n) + " day ago"
    case DateString => localeDate
  }

  /** Every relative label is a number of the unit followed by its suffix. */
  lemma TextOfRelative(diffMs: int, localeDate: string)
    requires MinuteMs <= diffMs < 7 * DayMs
    ensures var l := FormatTime(diffMs);
            l.n >= 1
            && Text(l, localeDate) == Decimal(l.n) + (if l.MinutesAgo? then " min ago"
                                                       else if l.HoursAgo? then " hr ago"
                                                       else " day ago")
  {
    FormatTimeRanges(diffMs);
  }

  /** The badge of the tasker's history: the task's status, or none. */
  function TaskerBadge(status: string): (badge: Option<string>)
    ensures status == Market.Pending ==> badge == Some("Pending")
    ensures status == Market.Completed ==> badge == Some("Completed")
    ensures badge.None? <==> status != Market.Pending && status != Market.Completed
  {
    if status == Market.Pending then Some("Pending")
    else if status == Market.Completed then Some("Completed")
    else None
  }

  /** The badge of the requester's history, which calls a pending task "Posted". */
  function RequesterBadge(status: string): (badge: Option<string>)
    ensures status == Market.Pending ==> badge == Some("Posted")
    ensures status == Market.Completed ==> badge == Some("Completed")
    ensures badge.None? <==> status != Market.Pending && status != Market.Completed
  {
    if status == Market.Pending then Some("Posted")
    else if status == Market.Completed then Some("Completed")
    else None
  }

  /** The two pages show a badge for the same statuses and differ only in the
      wording for a pending task. */
  lemma BadgesDifferOnlyForPending(status: string)
    ensures TaskerBadge(status).Some? <==> RequesterBadge(status).Some?
    ensures TaskerBadge(status) != RequesterBadge(status) <==> status == Market.Pending
  {
  }

  /** Each entry links to `/messages/<task>/<other user>`. */
  function ConversationPath(c: Market.Conversation): string {
    "/messages/" + c.taskId + "/" + c.otherUserId
  }

  /** The link of an entry opens the chat about that task with that user, and
      that page renders for any signed-in user who has a role. */
  lemma ConversationLinkOpensChat(c: Market.Conversation, user: Option<User>)
    requires Routes.Param(c.taskId) && Routes.Param(c.otherUserId)
    ensures Routes.Match(ConversationPath(c)) == Routes.Chat(c.taskId, c.otherUserId)
    ensures Routes.Element(Routes.Match(ConversationPath(c)), user) == Routes.Render
            <==> user.Some? && RoleOf(user.value) != ""
  {
    var r := Routes.Chat(c.taskId, c.otherUserId);
    var segs := ["", "messages", c.taskId, c.otherUserId];
    assert segs[1..] == ["messages", c.taskId, c.otherUserId];
    assert segs[1..][1..] == [c.taskId, c.otherUserId];
    assert segs[1..][1..][1..] == [c.otherUserId];
    assert Routes.Join([c.taskId, c.otherUserId]) == c.taskId + "/" + c.otherUserId;
    assert Routes.Join(["messages", c.taskId, c.otherUserId]) == "messages" + "/" + (c.taskId + "/" + c.otherUserId);
    assert Routes.Path(r) == "" + "/" + ("messages" + "/" + (c.taskId + "/" + c.otherUserId));
    assert ConversationPath(c) == Routes.Path(r);
    Routes.MatchPath(r);
    Routes.RenderedOnlyForOwnRole(r, user);
  }

  /** The page's state, the same on both roles' history pages. */
  class Page {
    var conversations: seq<Market.Conversation>
    var loading: bool
    var error: string

    constructor ()
      ensures conversations == [] && loading && error == ""
    {
      conversations := [];
      loading := true;
      error := "";
    }

    /** `fetchConversations`: a reply replaces the list and clears the error; an
      error keeps the list and shows a fixed message. Loading ends either way. */
    method FetchConversations(b: Browser, reply: Reply<seq<Market.Conversation>>)
      modifies this, b
      ensures !loading
      ensures reply.Ok? ==> conversations == reply.data && error == ""
      ensures !reply.Ok? ==> conversations == old(conversations) && error == LoadFailedMessage
      ensures (b.storage, b.location) == Gateway.Settled(reply, old(b.storage), old(b.location))
    {
      var delivered := Gateway.Receive(b, reply);
      if delivered.Ok? {
        conversations := delivered.data;
        error := "";
      } else {
        error := LoadFailedMessage;
      }
      loading := false;
    }
  }
}
