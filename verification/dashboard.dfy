/** The submitter's dashboard: creating a suggestion, listing the user's
    own suggestions newest first, presenting their status, and deciding
    which of them can go back into the chat. The database and the signed-in
    user are oracles. */
module Dashboard {
  import opened Base
  import opened Messages
  import ChatInterface

  /** A row of the `suggestions` table as the dashboard reads it.
      `createdAt` stands for the creation timestamp, ordered as the
      database orders it. The chat component takes a narrower prop type,
      `ChatInterface.Suggestion`; `ChatFor` passes a row to it. */
  datatype Suggestion = Suggestion(
    id: string,
    userId: string,
    title: string,
    description: string,
    status: string,
    aiConversation: seq<Message>,
    createdAt: int,
    adminNotes: Option<string>)

  datatype Profile = Profile(userId: string, fullName: string, role: string)

  datatype DashState = DashState(
    user: Option<string>,
    profile: Option<Profile>,
    suggestions: seq<Suggestion>,
    loading: bool,
    active: Option<Suggestion>)

  const Pending := "pending"
  const Approved := "approved"
  const Rejected := "rejected"

  /** The icon beside a status badge. */
  datatype StatusIcon = CheckIcon | CrossIcon | ClockIcon

  /** `getStatusIcon`: approved and rejected have their own icons; every
      other status string falls to the clock. */
  function StatusIconFor(status: string): (icon: StatusIcon)
    ensures icon == CheckIcon <==> status == Approved
    ensures icon == CrossIcon <==> status == Rejected
  {
    if status == Approved then CheckIcon
    else if status == Rejected then CrossIcon
    else ClockIcon
  }

  /** `getStatusColor`, with the same three branches. */
  function StatusColor(status: string): string {
    if status == Approved then "bg-success-light text-success-foreground"
    else if status == Rejected then "bg-destructive/10 text-destructive"
    else "bg-warning-light text-warning-foreground"
  }

  /** The two mappings sort statuses into the same three classes: two
      statuses share an icon exactly when they share a colour. */
  lemma StatusStylesAgree(a: string, b: string)
    ensures StatusIconFor(a) == StatusIconFor(b) <==> StatusColor(a) == StatusColor(b)
  {
  }

  /** Every status other than approved and rejected, `pending` included, is
      shown like `pending`. */
  lemma DefaultStatusStyle(status: string)
    requires status != Approved && status != Rejected
    ensures StatusIconFor(status) == StatusIconFor(Pending) == ClockIcon
    ensures StatusColor(status) == StatusColor(Pending)
  {
  }

  /** A suggestion goes back into the chat (and shows "Continue with AI")
      only while pending with no conversation yet. */
  predicate CanResume(sg: Suggestion) {
    sg.status == Pending && |sg.aiConversation| == 0
  }

  /** Clicking a suggestion in the list. */
  function Click(d: DashState, sg: Suggestion): (d': DashState)
    ensures d'.active == (if CanResume(sg) then Some(sg) else d.active)
    ensures d'.suggestions == d.suggestions && d'.loading == d.loading
    ensures d'.user == d.user && d'.profile == d.profile
    ensures !CanResume(sg) ==> d' == d
  {
    if CanResume(sg) then d.(active := Some(sg)) else d
  }

  /** The chat's back and completion callbacks both leave the chat. */
  function CloseChat(d: DashState): DashState {
    d.(active := None)
  }

  /** Leaving the chat with its back button does not reload the list, so the
      same row, still showing its old empty conversation, can be clicked
      open again. */
  lemma BackKeepsStaleRow(d: DashState, sg: Suggestion)
    requires CanResume(sg)
    ensures var back := CloseChat(Click(d, sg));
      && back.active.None? && back.suggestions == d.suggestions
      && Click(back, sg).active == Some(sg)
  {
  }

  /** Admin notes are shown when present and non-empty. */
  predicate ShowsAdminNotes(notes: Option<string>) {
    notes.Some? && notes.value != ""
  }

  /** The admin-panel button is shown to profiles with the admin role. */
  predicate ShowsAdminButton(profile: Option<Profile>) {
    profile.Some? && profile.value.role == "admin"
  }

  /** The row `createSuggestion` inserts. */
  datatype NewRow = NewRow(userId: string, title: string, description: string, status: string)

  /** `createSuggestion`, given what the insert returned. Without a user
      nothing happens. Otherwise a pending row owned by the user is
      inserted; the returned row becomes the active suggestion, and on an
      error the active suggestion stays. */
  function Create(d: DashState, title: string, description: string, inserted: Result<Suggestion, string>)
    : (r: (DashState, Option<NewRow>))
    ensures d.user.None? ==> r == (d, None)
    ensures d.user.Some? ==>
      && r.1 == Some(NewRow(d.user.value, title, description, Pending))
      && !r.0.loading
      && r.0.active == (if inserted.Ok? then Some(inserted.value) else d.active)
      && r.0.suggestions == d.suggestions
      && r.0.user == d.user && r.0.profile == d.profile
  {
    match d.user
    case None => (d, None)
    case Some(uid) =>
      var row := NewRow(uid, title, description, Pending);
      var active := if inserted.Ok? then Some(inserted.value) else d.active;
      (d.(loading := false, active := active), Some(row))
  }

  /** The chat component mounted on a suggestion (`<ChatInterface
      suggestion={activeSuggestion}>`). */
  function ChatFor(sg: Suggestion): ChatInterface.ChatState {
    ChatInterface.Init(ChatInterface.Suggestion(sg.id, sg.title, sg.description, sg.aiConversation))
  }

  /** Clicking a resumable suggestion opens a chat that holds only the
      greeting for that suggestion, at round 0: nothing can be completed
      yet and the cap is far away. */
  lemma ResumedChatStartsFresh(d: DashState, sg: Suggestion)
    requires CanResume(sg)
    ensures Click(d, sg).active == Some(sg)
    ensures ChatFor(sg).messages == [ChatInterface.Greeting(sg.title, sg.description)]
    ensures ChatFor(sg).round == 0 && !ChatInterface.CanComplete(ChatFor(sg))
  {
    assert [ChatInterface.Greeting(sg.title, sg.description)] + sg.aiConversation
      == [ChatInterface.Greeting(sg.title, sg.description)];
  }

  /** A created suggestion that the database returns with its fields as
      inserted (and, by the column's default, an empty conversation) opens
      straight into a chat greeting the typed title and description at
      round 0, the same chat a click on it in the list would open. */
  lemma CreatedSuggestionIsResumable(d: DashState, title: string, description: string, row: Suggestion)
    requires d.user.Some?
    requires row.aiConversation == []
    requires Create(d, title, description, Ok(row)).1 == Some(NewRow(row.userId, row.title, row.description, row.status))
    ensures Create(d, title, description, Ok(row)).0.active == Some(row)
    ensures CanResume(row) && Click(d, row).active == Some(row)
    ensures ChatFor(row).messages == [ChatInterface.Greeting(title, description)]
    ensures ChatFor(row).round == 0
  {
    ResumedChatStartsFresh(d, row);
  }

  /** Rows sorted by creation time, newest first. */
  predicate NewestFirst(rows: seq<Suggestion>) {
    forall i, j :: 0 <= i < j < |rows| ==> rows[i].createdAt >= rows[j].createdAt
  }

  /** The rows of the table that belong to `uid`, in table order. */
  function OwnedBy(table: seq<Suggestion>, uid: string): (r: seq<Suggestion>)
    ensures forall i :: 0 <= i < |r| ==> r[i].userId == uid
    ensures forall x: Suggestion :: multiset(r)[x] == if x.userId == uid then multiset(table)[x] else 0
  {
    if |table| == 0 then []
    else
      var rest := OwnedBy(table[1..], uid);
      assert table == [table[0]] + table[1..];
      if table[0].userId == uid then [table[0]] + rest else rest
  }

  /** Places one row into a newest-first list. */
  function InsertByDate(x: Suggestion, rows: seq<Suggestion>): (r: seq<Suggestion>)
    requires NewestFirst(rows)
    ensures NewestFirst(r)
    ensures multiset(r) == multiset(rows) + multiset{x}
  {
    if |rows| == 0 || x.createdAt >= rows[0].createdAt then [x] + rows
    else
      var rest := InsertByDate(x, rows[1..]);
      assert rows == [rows[0]] + rows[1..];
      HeadIsNewest(rows[0], x, rows[1..], rest);
      [rows[0]] + rest
  }

  lemma HeadIsNewest(h: Suggestion, x: Suggestion, tail: seq<Suggestion>, rest: seq<Suggestion>)
    requires x.createdAt < h.createdAt
    requires forall k :: 0 <= k < |tail| ==> h.createdAt >= tail[k].createdAt
    requires NewestFirst(rest) && multiset(rest) == multiset(tail) + multiset{x}
    ensures NewestFirst([h] + rest)
  {
    forall k | 0 <= k < |rest|
      ensures h.createdAt >= rest[k].createdAt
    {
      assert rest[k] in multiset(rest);
      if rest[k] != x {
        assert rest[k] in multiset(tail);
        assert rest[k] in tail;
      }
    }
  }

  /** Insertion sort by creation time, newest first. */
  function SortNewestFirst(rows: seq<Suggestion>): (r: seq<Suggestion>)
    ensures NewestFirst(r)
    ensures multiset(r) == multiset(rows)
  {
    if |rows| == 0 then []
    else
      assert rows == [rows[0]] + rows[1..];
      InsertByDate(rows[0], SortNewestFirst(rows[1..]))
  }

  /** The list query: the user's own rows, every one of them, newest
      first. */
  function ListFor(table: seq<Suggestion>, uid: string): (r: seq<Suggestion>)
    ensures forall i :: 0 <= i < |r| ==> r[i].userId == uid
    ensures forall x: Suggestion :: x.userId == uid ==> multiset(r)[x] == multiset(table)[x]
    ensures NewestFirst(r)
  {
    var own := OwnedBy(table, uid);
    var r := SortNewestFirst(own);
    forall i | 0 <= i < |r|
      ensures r[i].userId == uid
    {
      assert r[i] in multiset(own);
    }
    r
  }

  /** `fetchUserData` given the profile query's result, the table, and
      whether the list query succeeded. Without a user nothing happens.
      A failed profile query skips the list query; a failed list query
      keeps the old list. Loading ends either way. */
  function Fetch(d: DashState, profileReply: Result<Option<Profile>, string>, table: seq<Suggestion>, listOk: bool)
    : (d': DashState)
    ensures d.user.None? ==> d' == d
    ensures d.user.Some? ==> !d'.loading && d'.active == d.active && d'.user == d.user
    ensures d.user.Some? && profileReply.Ok? && listOk ==>
      d'.profile == profileReply.value && d'.suggestions == ListFor(table, d.user.value)
    ensures d.user.Some? && (profileReply.Err? || !listOk) ==> d'.suggestions == d.suggestions
    ensures profileReply.Err? ==> d'.profile == d.profile
    ensures d.user.Some? && profileReply.Ok? ==> d'.profile == profileReply.value
  {
    match d.user
    case None => d
    case Some(uid) =>
      match profileReply
      case Err(_) => d.(loading := false)
      case Ok(p) =>
        if listOk then d.(profile := p, suggestions := ListFor(table, uid), loading := false)
        else d.(profile := p, loading := false)
  }
}
