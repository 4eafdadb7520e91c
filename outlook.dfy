/** The calendar assistant: the credential cache shared by every assistant
    in the process, and the calendar listing tool `get_my_calendars`. */
module Outlook {
  import opened Calls
  import opened Text

  const DefaultUserId := "default_user"
  const RedirectUri := "http://localhost:8002/"
  const GraphScopes := ["User.Read", "Calendars.Read", "Calendars.ReadWrite"]
  const NoCalendarsText := "No calendars found"

  /** An interactive browser credential: an object, so that reusing one is
      observable as identity. */
  class Credential {
    const tenantId: Option<string>
    const clientId: Option<string>
    const redirectUri: string

    constructor(tenantId: Option<string>, clientId: Option<string>, redirectUri: string)
      ensures this.tenantId == tenantId && this.clientId == clientId && this.redirectUri == redirectUri
    {
      this.tenantId := tenantId;
      this.clientId := clientId;
      this.redirectUri := redirectUri;
    }
  }

  /** The class-level `token_cache`: one credential per user id, shared by
      every assistant constructed in the process. */
  class TokenCache {
    var entries: map<string, Credential>

    constructor()
      ensures entries == map[]
    {
      entries := map[];
    }
  }

  /** The calendar service client, bound to a credential and its scopes. */
  datatype GraphClient = GraphClient(credential: Credential, scopes: seq<string>)

  /** A calendar as the service describes it; either attribute may be `None`. */
  datatype Calendar = Calendar(name: Option<string>, id: Option<string>)

  /** The calendar collection; its `value` may be `None`. */
  datatype CalendarCollection = CalendarCollection(value: Option<seq<Calendar>>)

  /** The text of one calendar, without its line break. */
  function CalendarText(c: Calendar): string
  {
    Show(c.name) + " | " + Show(c.id)
  }

  /** The listing: one line per calendar, each ended by a line break, in input order. */
  function Listing(calendars: seq<Calendar>): (text: string)
    ensures text == "" <==> |calendars| == 0
    ensures |calendars| > 0 ==> text[|text| - 1] == '\n'
  {
    if |calendars| == 0 then "" else CalendarText(calendars[0]) + "\n" + Listing(calendars[1..])
  }

  function CalendarTexts(calendars: seq<Calendar>): (lines: seq<string>)
    ensures |lines| == |calendars|
    ensures forall k :: 0 <= k < |calendars| ==> lines[k] == CalendarText(calendars[k])
  {
    if |calendars| == 0 then [] else [CalendarText(calendars[0])] + CalendarTexts(calendars[1..])
  }

  /** The outcome of `get_my_calendars`, given the outcome of the calendar request. */
  function CalendarsReply(listing: Fetch<CalendarCollection>): (r: Outcome<string>)
    // only the request's own exception escapes
    ensures r.Propagates? <==> listing.Raised?
    ensures listing.Raised? ==> r.error == listing.error
    // the fixed message exactly when there is no calendar to list
    ensures r == Returns(NoCalendarsText) <==>
              listing.Fetched? && (listing.value.value.None? || |listing.value.value.value| == 0)
    ensures listing.Fetched? && listing.value.value.Some? && |listing.value.value.value| > 0 ==>
              r == Returns(Listing(listing.value.value.value))
  {
    match listing
    case Raised(e) => Propagates(e)
    case Fetched(collection) =>
      match collection.value
      case None => Returns(NoCalendarsText)
      case Some(calendars) => if |calendars| == 0 then Returns(NoCalendarsText) else Returns(Listing(calendars))
  }

  lemma {:induction false} ListingAppend(calendars: seq<Calendar>, c: Calendar)
    ensures Listing(calendars + [c]) == Listing(calendars) + CalendarText(c) + "\n"
  {
    if |calendars| == 0 {
      assert Listing([c]) == CalendarText(c) + "\n" + Listing([]);
    } else {
      assert (calendars + [c])[1..] == calendars[1..] + [c];
      ListingAppend(calendars[1..], c);
    }
  }

  /** A calendar whose name and id contain no line break. */
  predicate SingleLine(c: Calendar)
  {
    '\n' !in Show(c.name) && '\n' !in Show(c.id)
  }

  /** Splitting the listing at line breaks gives back one line per calendar, in
      input order, followed by the empty text after the last line break. */
  lemma {:induction false} ListingLines(calendars: seq<Calendar>)
    requires forall k :: 0 <= k < |calendars| ==> SingleLine(calendars[k])
    ensures Split(Listing(calendars), '\n') == CalendarTexts(calendars) + [""]
  {
    if |calendars| > 0 {
      var c := calendars[0];
      var text := CalendarText(c);
      assert '\n' !in text by {
        forall k | 0 <= k < |text| ensures text[k] != '\n' {
          var n, s := Show(c.name), " | ";
          if k < |n| { assert text[k] == n[k]; }
          else if k < |n| + |s| { assert text[k] == s[k - |n|]; }
          else { assert text[k] == Show(c.id)[k - |n| - |s|]; }
        }
      }
      ListingLines(calendars[1..]);
      SplitAfterPiece(text, '\n', Listing(calendars[1..]));
    }
  }

  /** The listing has exactly one line break per calendar. */
  lemma ListingLineCount(calendars: seq<Calendar>)
    requires forall k :: 0 <= k < |calendars| ==> SingleLine(calendars[k])
    ensures |Split(Listing(calendars), '\n')| == |calendars| + 1
  {
    ListingLines(calendars);
  }

  class Assistant {
    var credential: Credential
    var graphClient: GraphClient

    /** `Assistant(user_id)`: reuses the cached credential of `userId`, or
        creates one from the tenant and client ids and caches it. */
    constructor(cache: TokenCache, tenantId: Option<string>, clientId: Option<string>,
                userId: string := DefaultUserId)
      modifies cache
      ensures userId in cache.entries && credential == cache.entries[userId]
      ensures graphClient == GraphClient(credential, GraphScopes)
      // a cached user gets the same credential back, and the cache is unchanged
      ensures userId in old(cache.entries) ==>
                credential == old(cache.entries[userId]) && cache.entries == old(cache.entries)
      // a new user gets a fresh credential, added under that user alone
      ensures userId !in old(cache.entries) ==>
                && fresh(credential)
                && cache.entries == old(cache.entries)[userId := credential]
                && credential.tenantId == tenantId && credential.clientId == clientId
                && credential.redirectUri == RedirectUri
    {
      if userId in cache.entries {
        credential := cache.entries[userId];
      } else {
        var c := new Credential(tenantId, clientId, RedirectUri);
        cache.entries := cache.entries[userId := c];
        credential := c;
      }
      graphClient := GraphClient(credential, GraphScopes);
    }

    /** `get_my_calendars`, given the outcome of the calendar request. */
    method GetMyCalendars(listing: Fetch<CalendarCollection>) returns (r: Outcome<string>)
      ensures r == CalendarsReply(listing)
    {
      if listing.Raised? {
        return Propagates(listing.error);
      }
      var calendars := match listing.value.value case None => [] case Some(cs) => cs;
      if |calendars| == 0 {
        return Returns(NoCalendarsText);
      }
      var result := "";
      for i := 0 to |calendars|
        invariant result == Listing(calendars[..i])
      {
        var c := calendars[i];
        assert calendars[..i + 1] == calendars[..i] + [c];
        ListingAppend(calendars[..i], c);
        result := result + Show(c.name) + " | " + Show(c.id) + "\n";
      }
      assert calendars[..|calendars|] == calendars;
      return Returns(result);
    }
  }

  /** Constructing a second assistant for the same user changes nothing: both
      share one credential, and the cache holds that user once. */
  method ConstructionIsIdempotent(cache: TokenCache, tenantId: Option<string>, clientId: Option<string>, userId: string)
    returns (first: Assistant, second: Assistant)
    modifies cache
    ensures userId in cache.entries && first.credential == second.credential == cache.entries[userId]
    ensures cache.entries.Keys == old(cache.entries).Keys + {userId}
    ensures forall u :: u in old(cache.entries) ==> cache.entries[u] == old(cache.entries)[u]
  {
    first := new Assistant(cache, tenantId, clientId, userId);
    ghost var afterFirst := cache.entries;
    second := new Assistant(cache, tenantId, clientId, userId);
    assert cache.entries == afterFirst;
  }
}
