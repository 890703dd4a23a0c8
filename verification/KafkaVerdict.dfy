/** What a lookup must answer, stated on the broker's answers alone. */
module KafkaVerdict {
  import opened Prelude
  import opened KafkaSinkMachine
  import opened KafkaExchange

  datatype Verdict = Present | Absent | Conflict | Unknown

  /** A record that counts as the epoch's: it names this connector or none, and the epoch. */
  predicate Counts(me: nat, epoch: Epoch, p: PollResult) {
    p.Message? && (p.payload.connector == None || p.payload.connector == Some(me)) && p.payload.epoch == Some(epoch)
  }

  /** None of the first j polls is an error or such a record. */
  ghost predicate Quiet(me: nat, epoch: Epoch, polls: seq<PollResult>, j: int) {
    forall i :: 0 <= i < j <= |polls| ==> !polls[i].PollError? && !Counts(me, epoch, polls[i])
  }

  /** The end of partition q is among the first j polls. */
  ghost predicate EndSeen(polls: seq<PollResult>, q: nat, j: int) {
    exists i :: 0 <= i < j && i < |polls| && polls[i] == Eof(q)
  }

  /** Every partition was stable, and its end is among the first j polls. */
  ghost predicate ReadOut(stable: map<nat, bool>, polls: seq<PollResult>, j: int) {
    forall q :: q in stable ==> stable[q] && EndSeen(polls, q, j)
  }

  /** The first poll that decides is the j-th. */
  ghost predicate Undecided(me: nat, epoch: Epoch, stable: map<nat, bool>, polls: seq<PollResult>, j: int) {
    0 <= j <= |polls| && Quiet(me, epoch, polls, j) && !ReadOut(stable, polls, j)
  }

  /** What each verdict on a scan means.  `Absent` needs every partition to have been stable and to have ended before
      any record of the epoch or error; an error or the deadline leaves the outcome unknown. */
  ghost predicate ScanMeans(v: Verdict, me: nat, epoch: Epoch, expected: Option<Payload>, stable: map<nat, bool>,
                            polls: seq<PollResult>)
  {
    match v
    case Present =>
      exists j :: 0 <= j < |polls| && Undecided(me, epoch, stable, polls, j) && Counts(me, epoch, polls[j])
                  && (expected.None? || polls[j].payload == expected.value)
    case Conflict =>
      exists j :: 0 <= j < |polls| && Undecided(me, epoch, stable, polls, j) && Counts(me, epoch, polls[j])
                  && expected.Some? && polls[j].payload != expected.value
    case Absent => exists j :: 0 <= j <= |polls| && Quiet(me, epoch, polls, j) && ReadOut(stable, polls, j)
    case Unknown =>
      || Undecided(me, epoch, stable, polls, |polls|)
      || exists j :: 0 <= j < |polls| && Undecided(me, epoch, stable, polls, j) && polls[j].PollError?
  }

  lemma ReadOutStays(stable: map<nat, bool>, polls: seq<PollResult>, i: int, j: int)
    requires ReadOut(stable, polls, i) && i <= j
    ensures ReadOut(stable, polls, j)
  {
    forall q | q in stable ensures stable[q] && EndSeen(polls, q, j) {
      var k :| 0 <= k < i && k < |polls| && polls[k] == Eof(q);
    }
  }

  /** Where a verdict is reached: the poll before which nothing was decided, or where everything was read. */
  lemma Reached(v: Verdict, me: nat, epoch: Epoch, expected: Option<Payload>, stable: map<nat, bool>,
                polls: seq<PollResult>)
    returns (j: int)
    requires ScanMeans(v, me, epoch, expected, stable, polls)
    ensures 0 <= j <= |polls| && Quiet(me, epoch, polls, j)
    ensures v == Absent <==> ReadOut(stable, polls, j)
    ensures v == Present || v == Conflict ==> j < |polls| && Counts(me, epoch, polls[j])
    ensures v == Unknown ==> j == |polls| || polls[j].PollError?
    ensures v == Conflict ==> expected.Some? && polls[j].payload != expected.value
    ensures v == Present ==> expected.None? || polls[j].payload == expected.value
  {
    match v {
      case Present =>
        j :| 0 <= j < |polls| && Undecided(me, epoch, stable, polls, j) && Counts(me, epoch, polls[j])
             && (expected.None? || polls[j].payload == expected.value);
      case Conflict =>
        j :| 0 <= j < |polls| && Undecided(me, epoch, stable, polls, j) && Counts(me, epoch, polls[j])
             && expected.Some? && polls[j].payload != expected.value;
      case Absent => j :| 0 <= j <= |polls| && Quiet(me, epoch, polls, j) && ReadOut(stable, polls, j);
      case Unknown =>
        if Undecided(me, epoch, stable, polls, |polls|) {
          j := |polls|;
        } else {
          j :| 0 <= j < |polls| && Undecided(me, epoch, stable, polls, j) && polls[j].PollError?;
        }
    }
  }

  /** At most one verdict is right. */
  lemma OneVerdict(v: Verdict, w: Verdict, me: nat, epoch: Epoch, expected: Option<Payload>, stable: map<nat, bool>,
                   polls: seq<PollResult>)
    requires ScanMeans(v, me, epoch, expected, stable, polls) && ScanMeans(w, me, epoch, expected, stable, polls)
    ensures v == w
  {
    var i := Reached(v, me, epoch, expected, stable, polls);
    var j := Reached(w, me, epoch, expected, stable, polls);
    if v == Absent && i <= j { ReadOutStays(stable, polls, i, j); }
    if w == Absent && j <= i { ReadOutStays(stable, polls, j, i); }
  }

  // ---- The whole lookup ------------------------------------------------------------------------------

  /** Both watermarks of every partition were answered, and there is one. */
  predicate Answerable(a: Answers) {
    && a.partitions.Some? && a.partitions.value != []
    && forall q :: 0 <= q < |a.partitions.value| ==>
         a.partitions.value[q].high.Some? && a.partitions.value[q].stable.Some?
  }

  /** Which partitions were stable through their high watermark. */
  function StableOf(a: Answers): map<nat, bool>
    requires Answerable(a)
  {
    map q: nat | q < |a.partitions.value| ::
      a.partitions.value[q].stable.value >= a.partitions.value[q].high.value
  }

  ghost predicate Means(v: Verdict, me: nat, epoch: Epoch, expected: Option<Payload>, a: Answers) {
    if Answerable(a) then ScanMeans(v, me, epoch, expected, StableOf(a), a.polls) else v == Unknown
  }

  /** Requests that only read. */
  predicate ReadOnly(ev: Event) {
    ev.SetupFailed? || ev.Metadata? || ev.High? || ev.Stable? || ev.Poll? || ev.DeadlinePassed?
  }

  predicate AllReadOnly(trace: seq<Event>) { forall i :: 0 <= i < |trace| ==> ReadOnly(trace[i]) }
}
