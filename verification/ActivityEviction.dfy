/** A run of more operations than are retained: the oldest one is forgotten and can go back. */
module ActivityEviction {
  import opened Options
  import opened OrderedMaps
  import opened TaskActivity
  import opened ActivityReplay

  function Step(activity: string, sequence: nat): Progress {
    Progress(Some(sequence), activity, Capture, Uploading, None, None, 0, None, None)
  }

  function Shown(activity: string, sequence: nat): Frame {
    Frame("task_transfer_progress", Some(Step(activity, sequence)))
  }

  function Name(n: nat): string { seq(n, _ => 'b') }

  /** One activity at sequence 5, followed by `n` others. */
  function Activities(n: nat): seq<Frame> {
    if n == 0 then [Shown(Name(0), 5)] else Activities(n - 1) + [Shown(Name(n), 1)]
  }

  function Entries(n: nat): (m: OrderedMap<OpKey, Progress>)
    ensures |m| == n + 1 && forall i :: 0 <= i <= n ==> m[i].key == OpKey(Name(i), Capture)
  {
    if n == 0 then [Entry(OpKey(Name(0), Capture), Step(Name(0), 5))]
    else Entries(n - 1) + [Entry(OpKey(Name(n), Capture), Step(Name(n), 1))]
  }

  lemma NamesDiffer(n: nat)
    ensures forall i :: 0 <= i < n ==> Name(i) != Name(n)
  {
    forall i | 0 <= i < n ensures Name(i) != Name(n) { assert |Name(i)| == i && |Name(n)| == n; }
  }

  lemma NewActivity(s: Printer, n: nat)
    requires n > 0 && s.latest == Entries(n - 1)
    ensures Show(s, Shown(Name(n), 1)).0.latest == Bounded(Entries(n), MAX_LATEST)
  {
    NamesDiffer(n);
    PutNew(s.latest, OpKey(Name(n), Capture), Step(Name(n), 1));
    hide Line;
  }

  lemma {:induction false} AllRetained(n: nat)
    requires n < MAX_LATEST
    ensures After(Activities(n)).latest == Entries(n)
  {
    hide Line, Name;
    if n == 0 {
      assert Activities(0)[..0] == [] && ShowAll(NEW_PRINTER, []).0 == NEW_PRINTER;
      assert After(Activities(0)) == Show(NEW_PRINTER, Shown(Name(0), 5)).0;
    } else {
      AllRetained(n - 1);
      AfterOneMore(Activities(n - 1), Shown(Name(n), 1));
      NewActivity(After(Activities(n - 1)), n);
      hide Show;
    }
  }

  lemma FirstForgotten(n: nat)
    requires n > 0
    ensures Lookup(Entries(n)[1..], OpKey(Name(0), Capture)) == None
  {
    var rest := Entries(n)[1..];
    hide Entries;
    forall j | 0 <= j < |rest| ensures rest[j].key != OpKey(Name(0), Capture) {
      assert rest[j].key == OpKey(Name(j + 1), Capture) && |Name(j + 1)| == j + 1 && |Name(0)| == 0;
    }
    hide Name;
    LookupAbsent(rest, OpKey(Name(0), Capture));
  }

  lemma LatestForgets()
    ensures After(Activities(128)).latest == Entries(128)[1..]
  {
    AllRetained(127);
    AfterOneMore(Activities(127), Shown(Name(128), 1));
    NewActivity(After(Activities(127)), 128);
    hide Show, Name;
  }

  /**
    After 128 further operations the first one is not retained: a frame that was rejected as
    behind it is taken, and the operation goes back.
   */
  lemma ForgottenGoesBack()
    ensures Rejected(After(Activities(0)), Shown(Name(0), 1))
    ensures var end := After(Activities(128));
      && Lookup(end.latest, OpKey(Name(0), Capture)) == None && !Rejected(end, Shown(Name(0), 1))
      && Lookup(Show(end, Shown(Name(0), 1)).0.latest, OpKey(Name(0), Capture)) == Some(Step(Name(0), 1))
  {
    hide Line, Name;
    AllRetained(0);
    LatestForgets();
    FirstForgotten(128);
    hide Activities, Entries, Show;
    ForgottenIsTaken(After(Activities(128)), Shown(Name(0), 1));
  }
}
