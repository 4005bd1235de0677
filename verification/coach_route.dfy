/** `POST /api/coach` (`app/api/coach/route.ts`): the message guard and the
    waste average handed to the text generator as context. */
module CoachRoute {
  import opened Json
  import opened Http
  import opened Store
  import Seqs
  import Nudges

  /** `.limit(7)` on the logs ordered newest first. */
  const RecentLimit: int := 7

  /** The logs the query returns from the user's logs listed newest first. */
  function Recent(logsNewestFirst: seq<Nudges.WasteLog>): (r: seq<Nudges.WasteLog>)
    ensures |r| == if |logsNewestFirst| < RecentLimit then |logsNewestFirst| else RecentLimit
    ensures r <= logsNewestFirst
  {
    if |logsNewestFirst| < RecentLimit then logsNewestFirst else logsNewestFirst[..RecentLimit]
  }

  /** `avgDailyWaste`: the mean of `total_kg` (missing counted as 0) over the
      recent logs, and 0 when there are none. */
  function AvgDailyWaste(logsNewestFirst: seq<Nudges.WasteLog>): (r: real)
    ensures |logsNewestFirst| == 0 ==> r == 0.0
    ensures r * |Recent(logsNewestFirst)| as real == Nudges.TotalWaste(Recent(logsNewestFirst))
  {
    var recent := Recent(logsNewestFirst);
    if |recent| == 0 then 0.0 else Nudges.TotalWaste(recent) / |recent| as real
  }

  /** Logs older than the seventh most recent have no say in the average. */
  lemma OnlySevenMostRecentCount(a: seq<Nudges.WasteLog>, b: seq<Nudges.WasteLog>)
    requires |a| >= RecentLimit && |b| >= RecentLimit && a[..RecentLimit] == b[..RecentLimit]
    ensures AvgDailyWaste(a) == AvgDailyWaste(b)
  {
  }

  /** The average lies between the smallest and largest recent daily mass. */
  lemma AverageWithinDailyRange(logsNewestFirst: seq<Nudges.WasteLog>, lo: real, hi: real)
    requires |logsNewestFirst| > 0
    requires forall log :: log in Recent(logsNewestFirst) ==> lo <= Nudges.TotalOf(log) <= hi
    ensures lo <= AvgDailyWaste(logsNewestFirst) <= hi
  {
    var recent := Recent(logsNewestFirst);
    var n := |recent| as real;
    var avg := AvgDailyWaste(logsNewestFirst);
    Seqs.SumAtMost(recent, Nudges.TotalOf, hi);
    Seqs.SumAtLeast(recent, Nudges.TotalOf, lo);
    assert (avg - lo) * n == Nudges.TotalWaste(recent) - n * lo;
    assert (hi - avg) * n == n * hi - Nudges.TotalWaste(recent);
    NonNegativeFactor(avg - lo, n);
    NonNegativeFactor(hi - avg, n);
  }

  /** A product with a positive factor is non-negative only if the other factor is. */
  lemma NonNegativeFactor(x: real, n: real)
    requires n > 0.0 && x * n >= 0.0
    ensures x >= 0.0
  {
    assert x == (x * n) / n;
  }

  /** `!message || typeof message !== "string"` is false. */
  predicate ValidMessage(fields: map<string, Value>) {
    var message := Get(fields, "message");
    Truthy(message) && message.value.Text?
  }

  /** `userProfile?.household_size || 1`: a missing or zero size reads as 1. */
  function HouseholdSize(size: Option<real>): (r: real)
    ensures r != 0.0
    ensures size.Some? && size.value != 0.0 ==> r == size.value
    ensures size.None? || size.value == 0.0 ==> r == 1.0
  {
    if size.Some? && size.value != 0.0 then size.value else 1.0
  }

  /** The user figures written into the generator's system prompt. */
  datatype Context = Context(avgDailyWaste: real, householdSize: real, recentLogs: int)

  /** The context built from the logs as the store orders them and the profile's size. */
  function ContextFor(logsNewestFirst: seq<Nudges.WasteLog>, size: Option<real>): Context {
    Context(AvgDailyWaste(logsNewestFirst), HouseholdSize(size), |Recent(logsNewestFirst)|)
  }

  /** The 200 body's `response`. */
  datatype Reply = Reply(text: string)

  /** The POST handler. `logsNewestFirst` are the user's logs as the store orders
      them and `size` the profile's household size; `generate` stands for the text
      generator, given the context and the message, `None` when the call fails. */
  function HandlePost(user: Option<UserId>, body: Body, logsNewestFirst: seq<Nudges.WasteLog>, size: Option<real>,
                      generate: (Context, string) -> Option<string>): (r: Response<Reply>)
    ensures user.None? ==> r == Err(UNAUTHORIZED)
    ensures user.Some? && body.Unparsable? ==> r == Err(SERVER_ERROR)
    ensures user.Some? && body.Object? && !ValidMessage(body.fields) ==> r == Err(BAD_REQUEST)
    ensures r.Ok? <==>
              && user.Some? && body.Object? && ValidMessage(body.fields)
              && generate(ContextFor(logsNewestFirst, size), Get(body.fields, "message").value.s).Some?
    ensures r.Ok? ==>
              && r.status == OK
              && r.value == Reply(generate(ContextFor(logsNewestFirst, size), Get(body.fields, "message").value.s).value)
  {
    if user.None? then Err(UNAUTHORIZED)
    else if body.Unparsable? then Err(SERVER_ERROR)
    else
      match Get(body.fields, "message")
      case Some(Text(message)) =>
        if message == "" then Err(BAD_REQUEST)
        else
          var text := generate(ContextFor(logsNewestFirst, size), message);
          if text.None? then Err(SERVER_ERROR) else Ok(OK, Reply(text.value))
      case _ => Err(BAD_REQUEST)
  }

  /** A request turned away for its login or its message gets the same answer
      whatever the logs, the profile and the generator would have said: none of
      them is consulted. */
  lemma RejectedBeforeReading(user: Option<UserId>, body: Body,
                              logs1: seq<Nudges.WasteLog>, size1: Option<real>, generate1: (Context, string) -> Option<string>,
                              logs2: seq<Nudges.WasteLog>, size2: Option<real>, generate2: (Context, string) -> Option<string>)
    requires user.None? || (body.Object? && !ValidMessage(body.fields))
    ensures HandlePost(user, body, logs1, size1, generate1) == HandlePost(user, body, logs2, size2, generate2)
  {
  }

  /** Only the seven newest logs reach the generator: two log histories that agree
      on them give the same answer for every request. */
  lemma GeneratorSeesOnlyRecentLogs(user: Option<UserId>, body: Body, a: seq<Nudges.WasteLog>, b: seq<Nudges.WasteLog>,
                                    size: Option<real>, generate: (Context, string) -> Option<string>)
    requires |a| >= RecentLimit && |b| >= RecentLimit && a[..RecentLimit] == b[..RecentLimit]
    ensures HandlePost(user, body, a, size, generate) == HandlePost(user, body, b, size, generate)
  {
    OnlySevenMostRecentCount(a, b);
  }
}
