# LiveKit voice-agent tools: a Dafny model

The repository is a set of LiveKit voice agents. Each agent is an `Assistant`
with a few `@function_tool` methods that the language model can call. The
tools look up a flight's status, search for flight offers, summarise news,
look up the weather, and list the user's Outlook calendars. Turn-taking,
end-of-turn detection and barge-in are not implemented here: the LiveKit
`AgentSession` does that work, and the entry points only pass parameters to it.

What the repository itself decides is what each tool does with the data it
fetches. This model covers that part. Each call to an outside service is an
input value, never a real call:

- an HTTP response, a location lookup, an offer search, an article query, an
  archive response or a calendar listing;
- or the exception that call raised (`Calls.Fetch`).

Each tool's post-processing is a function or method over those inputs. When
a tool makes several calls, the model also returns the calls it actually made.
That is how a property such as "no offer search is made when an airport is
missing" becomes something the model can state.

Modules:

- `Calls`: the shapes of outside outcomes: `Fetch`, `HttpResponse`, `Error`,
  and `Outcome` for tools whose exceptions escape. It also has Python's
  `d.get(k, default)` and `f"{x}"` for a value that may be `None`.
- `Text`: `sep.join`, a one-character `split` proved to be its inverse in both
  directions, and `str(n)` for natural numbers, proved to read back as `n`.
- `Flight`: `get_flight_position`, the offer formatter of `search_flights`
  (a loop proved against a filter-map specification), and `search_flights`
  itself in a class holding `_session`.
- `News`: `get_news_summary` and `get_factual_news`. Each is a loop proved
  against a specification function, and lemmas show the cap at three
  articles and that the three kinds of reply cannot be confused.
- `Weather`: `lookup_weather` as a pure function, plus the exact key set of
  the returned dictionary and the two forms of the location query.
- `Outlook`: the process-wide credential cache, modelled as a `TokenCache`
  object shared by every `Assistant` constructor, and `get_my_calendars`
  as a loop proved against a listing function.

## Model

| member | source | states |
|---|---|---|
| `Text.Decimal` | flight.py:42 | `str(n)` is a non-empty run of decimal digits, without a leading zero unless n is 0 |
| `Text.DecimalRoundTrip` | flight.py:125 | reading `str(n)` back as a decimal number gives n |
| `Text.JoinEnds` | flight.py:121 | `sep.join(parts)` (also used at news.py:49 and news.py:75) starts with the first part and ends with the last one, so the separator sits only between neighbours; `Text.SplitJoin` and `Text.JoinSplit` show that splitting undoes the join |
| `Text.Split` | flight.py:121 | splitting at a character gives at least one piece, and no piece contains that character |
| `Text.SplitJoin` | flight.py:121 | splitting `c.join(parts)` at `c` gives back `parts` when no part contains `c` |
| `Text.JoinSplit` | flight.py:121 | joining the pieces of a split with the separator gives back the original text |
| `Text.SplitWithoutSeparator` | weather.py:42-43 | text that lacks the separator splits into itself alone |
| `Text.SplitAfterPiece` | outlook.py:50-51 | a piece without the separator, then the separator, splits off as exactly one piece |
| `Flight.GetFlightPosition` | flight.py:35-49 | a raised request or body decode gives `Error retrieving flight position: <e>`; any status but 200 gives the HTTP message for that status; a missing or empty `flights` gives `No recent flights found for <n>.`; otherwise the first flight's text |
| `Flight.StatusFailureIgnoresBody` | flight.py:41-42 | with a status other than 200, the body (decodable or not) cannot change the reply |
| `Flight.OnlyFirstFlightShown` | flight.py:44-47 | flights after the first never affect the reply, which is the first flight's text |
| `Flight.HttpFailureStatusReadable` | flight.py:41-42 | the HTTP failure message is the fixed prefix, the status digits, and `)`, and those digits read back as the status |
| `Flight.PriceText` | flight.py:112 | the price is `"N/A"` when the offer has no `price` or the price has no `total`, and otherwise the `total` |
| `Flight.OfferLine` | flight.py:105-115 | an offer's line opens with `Flight <carrier><number>: departs <departure>`, taken from the first segment, and closes with `, arrives <arrival>, price <price> EUR`, taking the arrival from the last segment |
| `Flight.FormatOffers` | flight.py:96-116 | the formatter never yields more lines than there are offers |
| `Flight.FormatOffersAppend` | flight.py:97-116 | formatting distributes over concatenation: the surviving offers keep their input order, and each line depends only on its own offer |
| `Flight.FormatOffersEmpty` | flight.py:97-119 | the formatter yields no line exactly when no offer has both an itinerary and a segment in its first itinerary |
| `Flight.FormatOffersAllBookable` | flight.py:97-116 | when every offer is bookable, line k is the line of offer k, for every k |
| `Flight.OfferLineUsesEnds` | flight.py:106-115 | a line depends only on the first segment, the last segment's arrival and the price, never on middle segments or later itineraries |
| `Flight.FormatOffersSingleLines` | flight.py:106-116 | if no shown field holds a line break, no formatted line holds one |
| `Flight.FormatOfferLines` | flight.py:96-116 | the `for`/`continue` loop builds exactly the filter-map `FormatOffers` of the offers |
| `Flight.ProactiveCountMatchesLines` | flight.py:121-127 | the count in the proactive summary equals the number of lines of the result, recovered by splitting it at line breaks |
| `Flight.Assistant.constructor` | flight.py:16-22 | a new assistant has no session |
| `Flight.Assistant.SearchFlights` | flight.py:51-135 | no call is made exactly when the client cannot be built, and then the reply is that exception's message. Otherwise the origin is looked up, then the destination unless the origin lookup raised. An offer search runs exactly when both lookups returned data, using their first IATA codes. Each early exit has its own message, and `ResponseError` is told apart from other exceptions. With at least one line, a proactive reply with the line count is requested exactly when a session is set, and the reply is the lines joined by `"\n"` unless that request raises, which gives that exception's message |
| `News.Titles` | news.py:41-42 | one title per article, in order, `"No title"` where the title is missing |
| `News.CollectedTitles` | news.py:40-44 | the loop collects min(n, 3) titles, the k-th being the k-th article's title or its default |
| `News.NewsSummary` | news.py:48-55 | the fallback after an early failure, `No news found.` for no articles, otherwise a summary that opens with `Recent news: ` and the first title and ends with the last title collected (the third at most) |
| `News.GetNewsSummary` | news.py:31-55 | the loop with its `break` at three titles computes exactly `NewsSummary`: the fallback when the query fails before yielding three articles, `No news found.` for none, otherwise `Recent news: ` and the titles joined by `". "` |
| `News.NewsSummaryReadsThree` | news.py:40-44 | two queries that agree on their first three articles give the same reply, whatever comes after them, failures included |
| `News.NewsSummaryCases` | news.py:48-55 | the fallback message appears exactly when the query failed early; `No news found.` exactly when it yielded nothing; the `Recent news: ` prefix exactly when it yielded something |
| `News.ItemTexts` | news.py:69-72 | one `<title> (<source>)` item per result, in order, with `"No title"` and `"Unknown source"` as defaults |
| `News.FactualItems` | news.py:68-72 | a falsy response or one without `results` yields no items; otherwise the items of the first min(n, 3) results |
| `News.FactualNews` | news.py:74-81 | the apology when the call raised, `No factual data found about <query>.` for no items, otherwise a summary that opens with `Factual data: ` and the first result's item and ends with the item of the last result used (the third at most) |
| `News.GetFactualNews` | news.py:58-81 | the loop over `results[:3]` computes exactly `FactualNews`: the apology when the call raised, `No factual data found about <query>.` for no items, otherwise `Factual data: ` and the items joined by `". "` |
| `News.FactualNewsReadsThree` | news.py:69 | results after the third never change the reply |
| `News.FactualNewsCases` | news.py:74-81 | the apology appears exactly when the call raised; the "no factual data" message exactly when there were no items; the `Factual data: ` prefix exactly when there were some |
| `Weather.LocationQuery` | weather.py:40-43 | the query is the city, followed by a comma and the country code only when a code is given |
| `Weather.WeatherUrl` | weather.py:40-43 | the URL is the endpoint, then the location query, then `&appid=` and the key |
| `Weather.LookupWeather` | weather.py:23-61 | the country code defaults to `""`. No request is made exactly when the key is missing or empty, and then the result is `{"error": "Missing API key"}`. Otherwise the built URL is requested. The fetch error record appears exactly when the status is not 200. A raised request or body decode escapes with its own exception, and an empty `weather` list raises `IndexError`. A decoded 200 answer with a `weather` entry always gives the report of `name`, `main.temp` minus 273.15 and the first entry's `main` and `description` |
| `Weather.AsDict` | weather.py:56-61 | a report has exactly the keys `location`, `temperature_celsius`, `weather_main`, `weather_report`, carrying its fields; an error record has exactly the key `error` |
| `Weather.QueryWithCountry` | weather.py:40-41 | with a country code, the query splits at its comma into exactly the city and the code |
| `Weather.QueryWithoutCountry` | weather.py:42-43 | with an empty country code, the query is the city alone, with no comma added |
| `Outlook.Credential.constructor` | outlook.py:30-34 | a new credential carries the tenant id, client id and redirect URI it was given |
| `Outlook.TokenCache.constructor` | outlook.py:21 | the cache starts empty |
| `Outlook.Assistant.constructor` | outlook.py:23-40 | afterwards the user (by default `"default_user"`) is cached and `credential` is its cached entry. A cached user gets the same credential and the cache stays as it was. A new user gets a fresh credential with the given ids, added under that user only. The graph client is bound to the credential and the three scopes |
| `Outlook.ConstructionIsIdempotent` | outlook.py:27-35 | constructing twice for one user yields one shared credential, adds at most that user's key, and keeps every earlier entry |
| `Outlook.CalendarTexts` | outlook.py:50-51 | one text per calendar, in order: its name, a vertical bar between spaces, and its id, each `None` shown as `"None"` |
| `Outlook.Listing` | outlook.py:49-51 | the listing is empty exactly when there is no calendar, and otherwise ends with a line break |
| `Outlook.CalendarsReply` | outlook.py:47-52 | only the request's own exception escapes; `No calendars found` appears exactly when `value` is `None` or empty; otherwise the reply is the listing |
| `Outlook.ListingAppend` | outlook.py:50-51 | appending a calendar appends exactly its line, ended by a line break, to the listing |
| `Outlook.ListingLines` | outlook.py:47-52 | splitting the listing at line breaks gives back each calendar's text in input order, then one empty piece |
| `Outlook.ListingLineCount` | outlook.py:49-51 | the listing has exactly one line per calendar |
| `Outlook.Assistant.GetMyCalendars` | outlook.py:43-52 | the `+=` loop computes exactly `CalendarsReply`: a raised request escapes, a `None` or empty list gives `No calendars found`, otherwise the listing |

## Left out

- The turn-taking, voice-activity, end-of-turn and barge-in pipeline. It lives in the `livekit` package, which is not part of this model. The repository only passes it parameters such as `eager_eot_threshold=0.4`.
- The `entrypoint` functions, the `__main__` blocks and `agent.py`: session and room setup, plugin choice and worker start-up, with no logic of their own.
- Network and SDK calls (aiohttp, the Amadeus client, EventRegistry, NewsData, Microsoft Graph, Azure interactive login), environment reads, dotenv, logging, async/await and the Windows environment tweaks in `outlook.py`. Each call is an input value: what it returned, or the exception it raised together with its `str(e)`. An environment read is an `Option<string>`.
- Required keys of fetched records are modelled as present: a segment's `carrierCode`, `number`, `departure.at` and `arrival.at`; a location's `iataCode`; the weather payload's `main.temp`, `name` and `weather`, and each `weather` entry's `main` and `description`. The `KeyError` a malformed record would raise is not modelled. Keys that the source reads with `.get(key, default)` are modelled as optional.
- JSON `null` values, for example a title that is present but `null`, are not modelled. Every optional key is either absent or a string.
- Weather.LookupWeather: the Kelvin-to-Celsius conversion is exact real subtraction (`temperatureKelvin - 273.15`), not Python floating point, so rounding is not modelled.
- News.GetNewsSummary: the article query is modelled as the articles it yields followed, possibly, by an exception. The `maxItems=3` request parameter is treated as a hint to the service, since the loop's own `break` is what caps the titles.
- Outlook: the class-level `token_cache` dictionary is a `TokenCache` object passed to each constructor, because Dafny has no mutable static fields. The model therefore does not show that all assistants share one cache unless they are given the same object.
- The URL of `get_flight_position`, its `x-apikey` header and the request headers of the other tools are not modelled. Only the tools' replies and the calls they make are.
- Flight.GetFlightPosition: `str(flights[0])` is taken as a given text per flight record (`FlightRecord.text`); Python's dictionary rendering is not modelled.
