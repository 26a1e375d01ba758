/** The id generator (crates/aver-core/src/ids.rs): threads of one process minting from one atomic
    cell by compare-and-exchange. */
module IdGen {
  import opened Writers

  /** `reading` holds what each minting thread last read; `minted` the ids handed out, in order. */
  datatype Generator = Generator(last: int, reading: map<nat, int>, minted: seq<int>)

  datatype Event =
    | Load(thread: nat)
    | Exchange(thread: nat, candidate: nat, spurious: bool)

  function Seeded(seed: int): Generator {
    Generator(if seed > 0 then seed else 0, map[], [])
  }

  /** One atomic step. A weak exchange may fail though nothing changed; a failed one reads again. */
  function Next(g: Generator, e: Event): Generator {
    match e
    case Load(t) => g.(reading := g.reading[t := g.last])
    case Exchange(t, candidate, spurious) =>
      if t !in g.reading then g
      else if spurious || g.reading[t] != g.last then g.(reading := g.reading[t := g.last])
      else
        var id := Mint(g.reading[t], candidate);
        Generator(id, g.reading - {t}, g.minted + [id])
  }

  function Run(g: Generator, events: seq<Event>): Generator
    decreases |events|
  {
    if events == [] then g else Next(Run(g, events[..|events| - 1]), events[|events| - 1])
  }

  ghost predicate Increasing(ids: seq<int>) {
    forall i, j :: 0 <= i < j < |ids| ==> ids[i] < ids[j]
  }

  /** However the threads interleave, ids come out strictly increasing, so none twice, and above the seed. */
  lemma {:induction false} MintedIdsIncrease(seed: int, events: seq<Event>)
    ensures var g := Run(Seeded(seed), events);
            && Increasing(g.minted)
            && (forall i :: 0 <= i < |g.minted| ==> seed < g.minted[i] <= g.last && 0 < g.minted[i])
            && seed <= g.last && 0 <= g.last
    decreases |events|
  {
    if events != [] { MintedIdsIncrease(seed, events[..|events| - 1]); }
  }

  /** A thread's exchange fails, spurious failures aside, only when another id was handed out since it read. */
  lemma {:induction false} FailureMeansProgress(g: Generator, thread: nat, between: seq<Event>)
    requires forall i :: 0 <= i < |between| ==> between[i].thread != thread
    ensures var read := Next(g, Load(thread));
            var now := Run(read, between);
            && thread in now.reading && now.reading[thread] == g.last && g.minted <= now.minted
            && (now.reading[thread] != now.last ==> |now.minted| > |g.minted|)
    decreases |between|
  {
    if between != [] {
      var front := between[..|between| - 1];
      assert forall i :: 0 <= i < |front| ==> front[i] == between[i];
      FailureMeansProgress(g, thread, front);
    }
  }
}
