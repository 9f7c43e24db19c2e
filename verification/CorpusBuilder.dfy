/** The corpus generator in its own form: an object whose fields every emit method updates. */
module CorpusBuilder {
  import opened Sequences
  import opened CorpusWorld
  import opened CorpusSpec
  import Apportionment
  import opened Rng
  import RoundRobin

  class Builder {
    const rng: Stream
    var drawn: nat
    var docs: seq<Doc>
    var corrections: seq<CorrectionRecord>
    var includeCorrections: bool

    constructor (rng: Stream)
      ensures View() == EMPTY && this.rng == rng
    {
      this.rng := rng;
      drawn, docs, corrections, includeCorrections := 0, [], [], true;
    }

    function View(): State
      reads this
    {
      State(docs, corrections, drawn)
    }

    method DrawBetween(lo: int, hi: int) returns (r: int)
      requires lo <= hi
      modifies this`drawn
      ensures r == IntBetween(rng(old(drawn)), lo, hi) && drawn == old(drawn) + 1
    {
      r := IntBetween(rng(drawn), lo, hi);
      drawn := drawn + 1;
    }

    method DrawAll(ranges: seq<(int, int)>) returns (r: seq<int>)
      requires ProperRanges(ranges)
      modifies this`drawn
      ensures r == Draws(rng, old(drawn), ranges) && drawn == old(drawn) + |ranges|
    {
      r := [];
      for i := 0 to |ranges|
        invariant drawn == old(drawn) + i
        invariant r == Draws(rng, old(drawn), ranges[..i])
      {
        var x := DrawBetween(ranges[i].0, ranges[i].1);
        r := r + [x];
        assert ranges[..i + 1][..i] == ranges[..i];
      }
      assert ranges[..|ranges|] == ranges;
    }

    /** How many documents of this kind there are: the next ordinal. */
    method CountOf(kind: Kind) returns (o: nat)
      ensures o == Ordinal(docs, kind)
    {
      o := 0;
      for i := 0 to |docs|
        invariant o == Ordinal(docs[..i], kind)
      {
        assert docs[..i + 1][..i] == docs[..i];
        if docs[i].kind == kind {
          o := o + 1;
        }
      }
      assert docs[..|docs|] == docs;
    }

    /** The first document asserting `subject pred ?`, and where in it. */
    method FindRelation(subject: Entity, pred: Predicate) returns (r: Option<(nat, nat)>)
      ensures r == FindFrom(docs, 0, subject, pred)
      ensures FirstAssertion(docs, 0, subject, pred, r)
    {
      hide FindIn;
      FindFromIsFirst(docs, 0, subject, pred);
      for i := 0 to |docs|
        invariant FindFrom(docs, 0, subject, pred) == FindFrom(docs, i, subject, pred)
      {
        var q := FindIn(docs[i].relations, subject, pred);
        if q.Some? {
          return Some((i, q.value));
        }
      }
      return None;
    }

    method WriteOne(kind: Kind)
      modifies this`docs, this`drawn
      ensures View() == EmitOne(rng, old(View()), kind)
    {
      RangesAreProper(kind);
      var o := CountOf(kind);
      var draws := DrawAll(Ranges(kind));
      docs := docs + [Doc(kind, o, draws, Relations(kind, o, draws))];
    }

    method WriteAuditUnit()
      modifies this`docs
      ensures View() == EmitAudit(old(View()))
    {
      var o := CountOf(AuditFindingDoc);
      docs := docs + [Doc(AuditFindingDoc, o, [], NarrativeRelations(o))];
      o := CountOf(AuditFindingDoc);
      docs := docs + [Doc(AuditFindingDoc, o, [], AttributionRelations(o))];
    }

    method WriteCorrection()
      modifies this`docs, this`drawn, this`corrections
      ensures View() == EmitCorrection(rng, old(View()))
    {
      WriteOne(CorrectionMemo);
      PairWith(docs[|docs| - 1].relations[0]);
    }

    /** Find what the memo overturns and record the pair; a memo with nothing to overturn is left unpaired. */
    method PairWith(late: Relation)
      requires docs != []
      modifies this`docs, this`corrections
      ensures View() == Pair(old(View()), late)
    {
      hide FindIn, FindFrom;
      var onTime := FindRelation(late.subject, ReportedOnTime);
      var fromVendor := FindRelation(late.subject, FromVendor);
      var forProject := FindRelation(late.subject, ForProject);
      if onTime.None? || fromVendor.None? || forProject.None? {
        return;
      }
      var (p, q) := onTime.value;
      var (pv, qv) := fromVendor.value;
      var (pp, qp) := forProject.value;
      var record := CorrectionRecord(
        late.subject, p, docs[p].relations[q].obj, |docs| - 1, late.obj,
        docs[pp].relations[qp].obj, docs[pv].relations[qv].obj);
      docs := Overturn(docs, p, q);
      corrections := corrections + [record];
    }

    method WriteKind(kind: Kind)
      modifies this`docs, this`drawn, this`corrections
      ensures View() == Emit(rng, includeCorrections, old(View()), kind)
    {
      match kind
      case AuditFindingDoc => WriteAuditUnit();
      case CorrectionMemo =>
        if includeCorrections {
          WriteCorrection();
        }
      case FillerDoc =>
      case _ => WriteOne(kind);
    }

    method WriteHot(total: int)
      requires View() == EMPTY
      modifies this`docs, this`drawn, this`corrections
      ensures View() == GenerateHot(rng, includeCorrections, total)
    {
      var budget := HotBudget(total);
      WeightsWellformed();
      var quotas := Apportionment.BuildQuotas(HOT_KIND_WEIGHTS, HOT_KIND_NAMES, budget);
      var units := quotas[AUDIT := quotas[AUDIT] / DOCS_PER_AUDIT_UNIT];
      var plan := RoundRobin.BuildPlan(HOT_KINDS, units, budget);
      WritePlan(plan);
      WriteSlack(budget);
    }

    method WritePlan(plan: seq<Kind>)
      modifies this`docs, this`drawn, this`corrections
      ensures View() == EmitAll(rng, includeCorrections, old(View()), plan)
    {
      for t := 0 to |plan|
        invariant View() == EmitAll(rng, includeCorrections, old(View()), plan[..t])
      {
        WriteKind(plan[t]);
        assert plan[..t + 1][..t] == plan[..t];
      }
      assert plan[..|plan|] == plan;
    }

    /** Single-document kinds absorb what halving the audit quota, or suppressing corrections, left unplaced. */
    method WriteSlack(budget: nat)
      modifies this`docs, this`drawn, this`corrections
      ensures View() == Slack(rng, includeCorrections, old(View()), budget, 0)
    {
      hide Emit;
      var extra := 0;
      while |docs| < budget
        invariant Slack(rng, includeCorrections, View(), budget, extra)
                  == Slack(rng, includeCorrections, old(View()), budget, 0)
        decreases budget - |docs|
      {
        SlackGrows(rng, includeCorrections, View(), extra);
        WriteKind(SINGLE_DOC_KINDS[extra % |SINGLE_DOC_KINDS|]);
        extra := extra + 1;
      }
    }

    method WriteUncertaintyLayer()
      modifies this`docs, this`drawn
      ensures View() == UncertaintyLayer(rng, old(View()), UNCERTAINTY_PAIRS)
    {
      for i := 0 to UNCERTAINTY_PAIRS
        invariant View() == UncertaintyLayer(rng, old(View()), i)
      {
        var draws := DrawAll(UNCERTAIN_RANGES);
        var serial, invoice := Serial((i * 7 + 5) % 900), Invoice((i * 3 + 9) % 220);
        docs := docs + [Doc(InventoryMemo, i, draws, [Says(invoice, CoversSerial, serial)]),
                        Doc(InvoiceMemo, i, draws, [Says(serial, PricedBy, invoice)])];
      }
    }

    method WriteFillers(total: nat)
      requires |docs| <= total
      modifies this`docs, this`drawn
      ensures View() == Fillers(rng, old(View()), total - old(|docs|))
    {
      var ordinal := 0;
      while |docs| < total
        invariant |docs| == old(|docs|) + ordinal <= total
        invariant View() == Fillers(rng, old(View()), ordinal)
        decreases total - |docs|
      {
        RangesAreProper(FillerDoc);
        var draws := DrawAll(Ranges(FillerDoc));
        docs := docs + [Doc(FillerDoc, ordinal, draws, [])];
        ordinal := ordinal + 1;
      }
    }

    method WriteLayer(options: Options)
      modifies this`docs, this`drawn
      ensures View() == Layered(rng, old(View()), options)
    {
      if options.uncertain {
        WriteUncertaintyLayer();
      }
    }

    method WriteUpTo(options: Options)
      modifies this`docs, this`drawn
      ensures View() == Filled(rng, old(View()), options)
    {
      if options.fillers && |docs| < options.total {
        WriteFillers(options.total);
      }
    }

    /** The whole run; its result is the specification, so every theorem about the specification is about it. */
    method Run(options: Options)
      requires View() == EMPTY
      modifies this
      ensures View() == Generate(rng, options)
    {
      includeCorrections := options.corrections;
      WriteHot(options.total - Layer(options));
      WriteLayer(options);
      WriteUpTo(options);
    }
  }
}
