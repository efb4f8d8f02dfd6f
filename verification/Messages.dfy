/** From the messages received to the statistics: the parser callback in front of the pipeline. */
module Messages {
  import opened WorkItems
  import opened Pipeline
  import opened Totals
  import opened Submission
  import opened Drain
  import opened Theorems
  import opened Records
  import opened JSONParsing
  import EndToEnd

  // ----- Symbol indices

  /** The number of symbols: the list ends at its first empty name. */
  function SymbolCount(symbols: seq<string>): nat {
    if symbols == [] || symbols[0] == "" then 0 else 1 + SymbolCount(symbols[1..])
  }

  /** Before that index no name is empty, and the name at it, if there is one, is. */
  lemma {:induction false} CountIsFirstEmpty(symbols: seq<string>)
    ensures SymbolCount(symbols) <= |symbols|
    ensures forall i :: 0 <= i < SymbolCount(symbols) ==> symbols[i] != ""
    ensures SymbolCount(symbols) < |symbols| ==> symbols[SymbolCount(symbols)] == ""
  {
    if symbols != [] && symbols[0] != "" {
      CountIsFirstEmpty(symbols[1..]);
    }
  }

  lemma {:induction false} CountEnds(symbols: seq<string>, i: nat)
    requires i <= SymbolCount(symbols)
    ensures i <= |symbols|
    ensures i < |symbols| && symbols[i] != "" ==> i < SymbolCount(symbols)
  {
    if i > 0 {
      CountEnds(symbols[1..], i - 1);
    }
  }

  lemma {:induction false} FindBelow(symbols: seq<string>, text: string, i: nat)
    requires i <= SymbolCount(symbols)
    ensures i <= |symbols|
    ensures Find(symbols, text, i).Some? ==> Find(symbols, text, i).value < SymbolCount(symbols)
    decreases |symbols| - i
  {
    CountEnds(symbols, i);
    if i < |symbols| && symbols[i] != "" && symbols[i] != text {
      FindBelow(symbols, text, i + 1);
    }
  }

  /** Every trade among the items names a symbol of the list. */
  predicate Listed(count: nat, items: seq<WorkItem>) {
    forall x :: x in items && x.trade.v > -1.0 ==> x.trade.s < count
  }

  /** If the static item names a listed symbol, the callback adds items of listed symbols only, and keeps it so. */
  lemma {:induction false} ParseIsListed(symbols: seq<string>, st: Assembly, events: seq<Event>)
    requires st.item.trade.s < SymbolCount(symbols)
    ensures Parse(symbols, st, events).0.item.trade.s < SymbolCount(symbols)
    ensures Listed(SymbolCount(symbols), Parse(symbols, st, events).1)
  {
    if events != [] {
      var n := |events| - 1;
      ParseIsListed(symbols, st, events[..n]);
      if events[n].StringEnd? {
        FindBelow(symbols, events[n].text, 0);
      }
    }
  }

  // ----- A sequence of messages, with the static state kept between them

  function ParseAll(symbols: seq<string>, st: Assembly, inputs: seq<seq<Event>>): seq<seq<WorkItem>>
    decreases |inputs|
  {
    if inputs == [] then [] else
      var (st', items) := Parse(symbols, st, inputs[0]);
      [items] + ParseAll(symbols, st', inputs[1..])
  }

  lemma {:induction false} AllListed(symbols: seq<string>, st: Assembly, inputs: seq<seq<Event>>)
    requires st.item.trade.s < SymbolCount(symbols)
    ensures forall items :: items in ParseAll(symbols, st, inputs) ==> Listed(SymbolCount(symbols), items)
    decreases |inputs|
  {
    if inputs != [] {
      ParseIsListed(symbols, st, inputs[0]);
      AllListed(symbols, Parse(symbols, st, inputs[0]).0, inputs[1..]);
    }
  }

  /** Messages one after the other are parsed as one sequence of events. */
  lemma {:induction false} ParseAllIsParse(symbols: seq<string>, st: Assembly, inputs: seq<seq<Event>>)
    ensures Concat(ParseAll(symbols, st, inputs)) == Parse(symbols, st, Concat(inputs)).1
    decreases |inputs|
  {
    if inputs != [] {
      var (st', items) := Parse(symbols, st, inputs[0]);
      ParseAppend(symbols, st, inputs[0], Concat(inputs[1..]));
      ParseAllIsParse(symbols, st', inputs[1..]);
    }
  }

  datatype Text = Text(now: int, segments: seq<Segment>)

  function Inputs(texts: seq<Text>): seq<seq<Event>> {
    if texts == [] then [] else [[Start(texts[0].now)] + Events(texts[0].segments)] + Inputs(texts[1..])
  }

  /** The trades of each text. */
  function Decoded(symbols: seq<string>, texts: seq<Text>): seq<seq<WorkItem>> {
    if texts == [] then [] else [Trades(symbols, texts[0].segments, texts[0].now)] + Decoded(symbols, texts[1..])
  }

  /** Well-formed messages are decoded one by one, whatever the static state is to begin with. */
  lemma {:induction false} TextsAreDecoded(symbols: seq<string>, st: Assembly, texts: seq<Text>)
    requires forall x :: x in texts ==> WellFormed(symbols, x.segments)
    ensures ParseAll(symbols, st, Inputs(texts)) == Decoded(symbols, texts)
    decreases |texts|
  {
    if texts != [] {
      hide Parse, Trades, Events, WellFormed;
      var (first, rest) := (texts[0], texts[1..]);
      assert first in texts && forall x :: x in rest ==> x in texts;
      var input := [Start(first.now)] + Events(first.segments);
      MessageIsDecoded(symbols, st, first.now, first.segments);
      TextsAreDecoded(symbols, Parse(symbols, st, input).0, rest);
      assert Inputs(texts)[1..] == Inputs(rest);
    }
  }

  // ----- What a run receives

  /** The messages received in a run, each as the items the callback added. */
  function Received(steps: seq<Step>): seq<seq<WorkItem>>
    decreases |steps|
  {
    if steps == [] then [] else
      (if steps[0].Receive? then [steps[0].trades] else []) + Received(steps[1..])
  }

  /** A directive is no trade. */
  lemma {:induction false} BlocksAreListed(count: nat, s: State, steps: seq<Step>)
    requires Feasible(s, steps) && forall items :: items in Received(steps) ==> Listed(count, items)
    ensures Listed(count, Concat(Blocks(steps)))
    decreases |steps|
  {
    if steps != [] {
      assert steps[0].Tick? ==> steps[0].item.trade.v == -1.0;
      assert steps[0].Receive? ==> steps[0].trades in Received(steps);
      assert forall items :: items in Received(steps[1..]) ==> items in Received(steps);
      hide Do, Can;
      BlocksAreListed(count, Do(s, steps[0]), steps[1..]);
      ConcatFirst(BlockIn(steps[0]), Blocks(steps[1..]));
    }
  }

  /** In every run fed by the callback, every accepted trade, and so every trade the Calculator takes up, names a listed
      symbol, if the static item did so at the start. */
  lemma AcceptedIsListed(w: nat, n: nat, symbols: seq<string>, st: Assembly, inputs: seq<seq<Event>>, steps: seq<Step>)
    requires w >= 1 && n >= 1 && Feasible(Init(w, n), steps)
    requires Received(steps) == ParseAll(symbols, st, inputs) && st.item.trade.s < SymbolCount(symbols)
    ensures var s := After(Init(w, n), steps);
      Listed(SymbolCount(symbols), s.api.hist) && Listed(SymbolCount(symbols), EndToEnd.Delivered(s))
  {
    var s := After(Init(w, n), steps);
    assert Reachable(w, n, s);
    AllListed(symbols, st, inputs);
    BlocksAreListed(SymbolCount(symbols), Init(w, n), steps);
    AcceptedInOrder(w, n, steps);
    hide Reachable, Feasible, After, Concat, Blocks;
    forall m | 0 <= m < |s.calculation.hist|
      ensures s.calculation.hist[m] < |s.api.hist|
    {
      InApiHistory(w, n, s, m);
    }
  }

  // ----- From the messages to the files

  /** One Writer, well-formed messages, no interrupt and fewer than 2880 calls of the minute handler: when the pipeline
      has come to rest, every symbol's buffer and files are made of exactly the trades the messages contain and the
      directives, in the order of submission; of nothing but the trades, message after message, if there were no
      directives. */
  lemma MessagesToFiles(n: nat, symbols: seq<string>, st: Assembly, texts: seq<Text>, steps: seq<Step>)
    requires n >= 1 && Feasible(Init(1, n), steps) && Still(After(Init(1, n), steps))
    requires Interrupt !in steps && Ticks(steps) < 2880
    requires forall x :: x in texts ==> WellFormed(symbols, x.segments)
    requires Received(steps) == ParseAll(symbols, st, Inputs(texts))
    ensures Received(steps) == Decoded(symbols, texts)
    ensures MadeOf(EndToEnd.Made(Init(1, n), Fresh(SymbolCount(symbols)), steps), Concat(Blocks(steps)))
    ensures Ticks(steps) == 0 ==> Concat(Blocks(steps)) == Concat(Decoded(symbols, texts))
  {
    TextsAreDecoded(symbols, st, texts);
    AllAccepted(1, n, steps);
    var s := After(Init(1, n), steps);
    if Ticks(steps) == 0 {
      OnlyMessages(steps);
    }
    hide Feasible, After, EndToEnd.Made, EndToEnd.Processed, Still, MadeOf, Concat, Blocks;
    EndToEnd.SingleWriterEndToEnd(n, SymbolCount(symbols), steps);
    assert s.api.hist[..EndToEnd.Processed(s)] == s.api.hist;
  }

  lemma {:induction false} OnlyMessages(steps: seq<Step>)
    requires Ticks(steps) == 0
    ensures Blocks(steps) == Received(steps)
    decreases |steps|
  {
    if steps != [] {
      OnlyMessages(steps[1..]);
    }
  }

  /** At rest without an exit order everything submitted has been accepted and processed. */
  lemma AllAccepted(w: nat, n: nat, steps: seq<Step>)
    requires w >= 1 && n >= 1 && Feasible(Init(w, n), steps) && Still(After(Init(w, n), steps))
    requires Interrupt !in steps && Ticks(steps) < 2880
    ensures var s := After(Init(w, n), steps);
      s.api.hist == Concat(Blocks(steps)) && EndToEnd.Processed(s) == |s.api.hist|
  {
    var s := After(Init(w, n), steps);
    assert Reachable(w, n, s);
    ExitIsOrdered(w, n, steps);
    AcceptedInOrder(w, n, steps);
    hide Reachable, Feasible, After, Concat, Blocks, Still;
    NobodyLeft(w, n, s);
    RestIsComplete(w, n, s);
  }

  lemma NobodyLeft(w: nat, n: nat, s: State)
    requires w >= 1 && n >= 1 && Reachable(w, n, s) && !s.api.exit
    ensures Left(s.writers) == 0 && s.book.rejected == []
  {
    ReachableIsGood(w, n, s);
  }
}
