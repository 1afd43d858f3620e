/** Writing the company context: patches read, merge and check, and write later, so that they can overlap. */
module ContextPatches {
  import opened Prelude
  import opened CompanyContext

  /** A patch between its read and its write. */
  datatype Pending<X> = Pending(partial: Partial<X>, read: Context<X>)

  datatype Table<X> = Table(stored: Option<Context<X>>, waiting: map<nat, Pending<X>>) {
    function Current(): Context<X> {
      stored.GetOr(EmptyContext())
    }
  }

  datatype Event<X> =
    | Put(context: Context<X>)
    | Read(id: nat, partial: Partial<X>)
    | Write(id: nat)
    | Fail(id: nat)

  predicate Enabled<X>(t: Table<X>, e: Event<X>) {
    match e
    case Put(_) => true
    case Read(id, _) => id !in t.waiting
    case Write(id) => id in t.waiting
    case Fail(id) => id in t.waiting
  }

  ghost function Next<X>(lower: string -> string, t: Table<X>, e: Event<X>): Table<X>
    requires Enabled(t, e)
  {
    match e
    case Put(c) => if Writable(lower, c) then t.(stored := Some(c)) else t
    case Read(id, p) =>
      if Writable(lower, Merge(t.Current(), p)) then t.(waiting := t.waiting[id := Pending(p, t.Current())]) else t
    case Write(id) => Table(Some(Merge(t.waiting[id].read, t.waiting[id].partial)), t.waiting - {id})
    case Fail(id) => t.(waiting := t.waiting - {id})
  }

  class ContextStore<X> {
    const lower: string -> string
    var stored: Option<Context<X>>
    var waiting: map<nat, Pending<X>>

    function View(): Table<X>
      reads this
    {
      Table(stored, waiting)
    }

    ghost predicate Valid()
      reads this
    {
      AllWritable(lower, View())
    }

    constructor (lower: string -> string)
      ensures Valid() && View() == Table(None, map[]) && this.lower == lower
    {
      this.lower := lower;
      stored, waiting := None, map[];
    }

    /** `PutCompanyContextUseCase.execute` */
    method PutContext(context: Context<X>) returns (error: Option<WriteError>)
      requires Valid()
      modifies this
      ensures Valid()
      ensures error.None? <==> Writable(lower, context)
      ensures View() == Next(lower, old(View()), Put(context))
    {
      error := AssertCompanyContextWritable(lower, context);
      if error.None? { stored := Some(context); }
    }

    /** `PatchCompanyContextUseCase.execute` up to its second await. */
    method ReadForPatch(id: nat, partial: Partial<X>) returns (error: Option<WriteError>)
      requires Valid() && id !in waiting
      modifies this
      ensures Valid()
      ensures error.None? <==> Writable(lower, Merge(old(View()).Current(), partial))
      ensures View() == Next(lower, old(View()), Read(id, partial))
    {
      var current := View().Current();
      var merged := Merge(current, partial);
      error := AssertCompanyContextWritable(lower, merged);
      if error.None? { waiting := waiting[id := Pending(partial, current)]; }
    }

    /** The rest of it: the merged context replaces whatever is stored by now. */
    method WritePatch(id: nat)
      requires Valid() && id in waiting
      modifies this
      ensures Valid()
      ensures View() == Next(lower, old(View()), Write(id))
    {
      stored := Some(Merge(waiting[id].read, waiting[id].partial));
      waiting := waiting - {id};
    }
  }

  // ---------------------------------------------------------------------------
  // Over all interleavings
  // ---------------------------------------------------------------------------

  /** What is stored, and whatever waits to be stored, is complete, and its audience names are unique. */
  ghost predicate AllWritable<X>(lower: string -> string, t: Table<X>) {
    && (t.stored.Some? ==> Writable(lower, t.stored.value))
    && (forall id :: id in t.waiting ==> Writable(lower, Merge(t.waiting[id].read, t.waiting[id].partial)))
  }

  ghost predicate Legal<X>(lower: string -> string, t: Table<X>, run: seq<Event<X>>)
    decreases |run|
  {
    run == [] || (Enabled(t, run[0]) && Legal(lower, Next(lower, t, run[0]), run[1..]))
  }

  ghost function Final<X>(lower: string -> string, t: Table<X>, run: seq<Event<X>>): Table<X>
    requires Legal(lower, t, run)
    decreases |run|
  {
    if run == [] then t else Final(lower, Next(lower, t, run[0]), run[1..])
  }

  /** However patches and writes overlap, only writable contexts are ever stored. */
  lemma {:induction false} StoredStaysWritable<X>(lower: string -> string, t: Table<X>, run: seq<Event<X>>)
    requires AllWritable(lower, t) && Legal(lower, t, run)
    ensures AllWritable(lower, Final(lower, t, run))
    decreases |run|
  {
    if run != [] { StoredStaysWritable(lower, Next(lower, t, run[0]), run[1..]); }
  }

  /** Two contexts agree on every field that a change leaves out. */
  ghost predicate AgreeOutside<X>(p: Partial<X>, a: Context<X>, b: Context<X>) {
    && (p.name.None? ==> a.identity.name == b.identity.name)
    && (p.description.None? ==> a.identity.description == b.identity.description)
    && (p.offer.None? ==> a.offer == b.offer)
    && (p.weDo.None? ==> a.voice.weDo == b.voice.weDo)
    && (p.weDont.None? ==> a.voice.weDont == b.voice.weDont)
    && (p.cta.None? ==> a.cta == b.cta)
    && (p.audience.None? ==> a.audience == b.audience)
    && (p.extras.None? ==> a.extras == b.extras)
  }

  /** A change brings nothing new where another leaves the context alone. */
  ghost predicate NothingNewOutside<X>(q: Partial<X>, p: Partial<X>, c: Context<X>) {
    && (p.name.None? && q.name.Some? ==> q.name.value == c.identity.name)
    && (p.description.None? && q.description.Some? ==> q.description.value == c.identity.description)
    && (p.offer.None? && q.offer.Some? ==> q.offer.value == c.offer)
    && (p.weDo.None? && q.weDo.Some? ==> q.weDo.value == c.voice.weDo)
    && (p.weDont.None? && q.weDont.Some? ==> q.weDont.value == c.voice.weDont)
    && (p.cta.None? && q.cta.Some? ==> q.cta.value == c.cta)
    && (p.audience.None? && q.audience.Some? ==> q.audience.value == c.audience)
    && (p.extras.None? && q.extras.Some? ==> q.extras.value == c.extras)
  }

  lemma MergeSameIff<X>(p: Partial<X>, a: Context<X>, b: Context<X>)
    ensures Merge(a, p) == Merge(b, p) <==> AgreeOutside(p, a, b)
  {
    var x, y := Merge(a, p), Merge(b, p);
    assert x == y <==>
           && x.identity == y.identity && x.offer == y.offer && x.voice == y.voice
           && x.cta == y.cta && x.audience == y.audience && x.extras == y.extras;
  }

  /**
    A patch writes what it would write had it read just now exactly when nothing it leaves out has changed since its
    read.
   */
  lemma WriteIsFreshIff<X>(lower: string -> string, t: Table<X>, id: nat)
    requires id in t.waiting
    ensures Next(lower, t, Write(id)).Current() == Merge(t.Current(), t.waiting[id].partial)
            <==> AgreeOutside(t.waiting[id].partial, t.waiting[id].read, t.Current())
  {
    MergeSameIff(t.waiting[id].partial, t.waiting[id].read, t.Current());
  }

  /**
    Two patches that both read before either writes, in any state. The one that writes first is lost in part exactly
    when it brings something new to a field that the other leaves out; otherwise the two together are the two one after
    the other.
   */
  lemma OverlapKeepsBothIff<X>(lower: string -> string, t: Table<X>, i: nat, j: nat, p: Partial<X>, q: Partial<X>)
    requires i != j && i !in t.waiting && j !in t.waiting
    requires Writable(lower, Merge(t.Current(), p)) && Writable(lower, Merge(t.Current(), q))
    ensures var run := [Read(i, p), Read(j, q), Write(j), Write(i)];
            && Legal(lower, t, run)
            && (Final(lower, t, run).Current() == Merge(t.Current(), Compose(q, p))
                <==> NothingNewOutside(q, p, t.Current()))
  {
    var t1 := Next(lower, t, Read(i, p));
    var t2 := Next(lower, t1, Read(j, q));
    var t3 := Next(lower, t2, Write(j));
    var t4 := Next(lower, t3, Write(i));
    FourSteps(lower, t, Read(i, p), Read(j, q), Write(j), Write(i));
    assert t4.Current() == Merge(t.Current(), p);
    MergeComposes(t.Current(), q, p);
    MergeSameIff(p, t.Current(), Merge(t.Current(), q));
  }

  lemma FirstStep<X>(lower: string -> string, t: Table<X>, e: Event<X>, run: seq<Event<X>>)
    requires Enabled(t, e) && Legal(lower, Next(lower, t, e), run)
    ensures Legal(lower, t, [e] + run) && Final(lower, t, [e] + run) == Final(lower, Next(lower, t, e), run)
  {
    assert ([e] + run)[1..] == run;
  }

  lemma FourSteps<X>(lower: string -> string, t: Table<X>, a: Event<X>, b: Event<X>, c: Event<X>, d: Event<X>)
    requires Enabled(t, a) && Enabled(Next(lower, t, a), b) && Enabled(Next(lower, Next(lower, t, a), b), c)
    requires Enabled(Next(lower, Next(lower, Next(lower, t, a), b), c), d)
    ensures Legal(lower, t, [a, b, c, d])
    ensures Final(lower, t, [a, b, c, d]) == Next(lower, Next(lower, Next(lower, Next(lower, t, a), b), c), d)
  {
    var t1 := Next(lower, t, a);
    var t2 := Next(lower, t1, b);
    FirstStep(lower, Next(lower, t2, c), d, []);
    FirstStep(lower, t2, c, [d] + []);
    FirstStep(lower, t1, b, [c] + ([d] + []));
    FirstStep(lower, t, a, [b] + ([c] + ([d] + [])));
    assert [a] + ([b] + ([c] + ([d] + []))) == [a, b, c, d];
  }

  /** Every write of the run finds unchanged what its patch leaves out. */
  ghost predicate AllFresh<X>(lower: string -> string, t: Table<X>, run: seq<Event<X>>)
    requires Legal(lower, t, run)
    decreases |run|
  {
    run == [] ||
    (&& (run[0].Write? ==> AgreeOutside(t.waiting[run[0].id].partial, t.waiting[run[0].id].read, t.Current()))
     && AllFresh(lower, Next(lower, t, run[0]), run[1..]))
  }

  /** The writes of a run one after another, each patch merged into what the one before left. */
  ghost function Serial<X>(lower: string -> string, t: Table<X>, run: seq<Event<X>>, c: Context<X>): Context<X>
    requires Legal(lower, t, run)
    decreases |run|
  {
    if run == [] then c
    else
      var now := match run[0]
                 case Put(put) => if Writable(lower, put) then put else c
                 case Read(_, _) => c
                 case Write(id) => Merge(c, t.waiting[id].partial)
                 case Fail(_) => c;
      Serial(lower, Next(lower, t, run[0]), run[1..], now)
  }

  /** No update is lost in such a run: what is stored at its end is what its writes make one after another. */
  lemma {:induction false} FreshRunsAreSerial<X>(lower: string -> string, t: Table<X>, run: seq<Event<X>>)
    requires Legal(lower, t, run) && AllFresh(lower, t, run)
    ensures Final(lower, t, run).Current() == Serial(lower, t, run, t.Current())
    decreases |run|
  {
    if run != [] {
      if run[0].Write? { WriteIsFreshIff(lower, t, run[0].id); }
      FreshRunsAreSerial(lower, Next(lower, t, run[0]), run[1..]);
    }
  }
}
