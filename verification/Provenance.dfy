/** Authority over whole runs: every operator's right goes back, grant by grant, to the JOIN that made the channel. */
module Provenance {
  import opened ServerState
  import opened Acts
  import opened Authority

  /** How someone came to be an operator: as founder in act number step, or promoted there by an operator. */
  datatype Lineage = Founder(step: nat) | Promoted(step: nat, granter: Ptr, before: Lineage)

  ghost predicate Traces(k: Control, acts: seq<Act>, name: string, inst: nat, p: Ptr, l: Lineage)
    requires Legal(k, acts)
    decreases l
  {
    && l.step < |acts| && Legal(k, acts[..l.step])
    && var moment := PerformAll(k, acts[..l.step]);
       match l
       case Founder(i) => Founds(moment, acts[i], name, inst, p)
       case Promoted(i, q, before) =>
         Promotes(moment, acts[i], name, inst, p, q) && Traces(k, acts[..i], name, inst, q, before)
  }

  lemma {:induction false} LineageSurvives(k: Control, acts: seq<Act>, i: nat, name: string, inst: nat, p: Ptr,
        l: Lineage)
    requires Legal(k, acts) && i <= |acts| && Legal(k, acts[..i]) && Traces(k, acts[..i], name, inst, p, l)
    ensures Traces(k, acts, name, inst, p, l)
  {
    assert acts[..i][..l.step] == acts[..l.step];
  }

  /** Main result: in a server that started empty, every operator of every channel instance has a lineage. */
  lemma {:induction false} EveryOperatorHasLineage(k: Control, acts: seq<Act>, name: string, inst: nat, p: Ptr)
    requires Inv(k) && k.channels == map[] && Legal(k, acts)
    requires IsOp(PerformAll(k, acts), name, inst, p)
    ensures exists l :: Traces(k, acts, name, inst, p, l)
    decreases |acts|
  {
    if acts != [] {
      var i := |acts| - 1;
      var front := acts[..i];
      var was := PerformAll(k, front);
      LegalRunKeepsInv(k, front);
      OperatorOrigin(was, acts[i], name, inst, p);
      if IsOp(was, name, inst, p) {
        EveryOperatorHasLineage(k, front, name, inst, p);
        var l :| Traces(k, front, name, inst, p, l);
        LineageSurvives(k, acts, i, name, inst, p, l);
      } else if Founds(was, acts[i], name, inst, p) {
        assert Traces(k, acts, name, inst, p, Founder(i));
      } else {
        var q := PtrOf(was, acts[i].fd);
        EveryOperatorHasLineage(k, front, name, inst, q);
        var l :| Traces(k, front, name, inst, q, l);
        assert Traces(k, acts, name, inst, p, Promoted(i, q, l));
      }
    }
  }

  // ---- channel instances ----

  predicate SameChannel(k: Control, name: string, inst: nat) {
    name in k.channels && k.channels[name].id == inst
  }

  /** Instances are never resurrected: one that is there after an act and was numbered before it was there before. */
  lemma InstanceIsOld(k: Control, a: Act, name: string, inst: nat)
    requires Inv(k) && Allowed(k, a)
    ensures SameChannel(Perform(k, a), name, inst) && inst < k.nextId ==> SameChannel(k, name, inst)
    ensures k.nextId <= Perform(k, a).nextId
  {
    ChannelEffect(k, a, name);
    if name in k.channels {
      if a.SetModes? { ModeBatchKeepsOk(k, a.name, a.plus, a.letters, a.args); }
      assert ChannelAfter(k, a, name).id == k.channels[name].id;
    }
  }

  lemma {:induction false} InstancePersists(k: Control, acts: seq<Act>, i: nat, name: string, inst: nat)
    requires Inv(k) && Legal(k, acts) && i <= |acts| && Legal(k, acts[..i])
    requires inst < PerformAll(k, acts[..i]).nextId && SameChannel(PerformAll(k, acts), name, inst)
    ensures SameChannel(PerformAll(k, acts[..i]), name, inst)
    ensures PerformAll(k, acts[..i]).nextId <= PerformAll(k, acts).nextId
    decreases |acts| - i
  {
    if i == |acts| {
      assert acts[..i] == acts;
    } else {
      PrefixIsLegal(k, acts, i);
      LegalRunKeepsInv(k, acts[..i]);
      InstanceIsOld(PerformAll(k, acts[..i]), acts[i], name, inst);
      InstancePersists(k, acts, i + 1, name, inst);
    }
  }

  predicate SameSettings(a: ChannelData, b: ChannelData) {
    a.modes == b.modes && a.key == b.key && a.limit == b.limit
  }

  /** In act number i, someone who was then an operator of this instance sent MODE. */
  ghost predicate OperatorSetModes(k: Control, acts: seq<Act>, i: int, name: string, inst: nat)
    requires Legal(k, acts)
  {
    && 0 <= i < |acts| && Legal(k, acts[..i]) && acts[i].SetModes? && acts[i].name == name
    && var moment := PerformAll(k, acts[..i]);
       acts[i].fd in moment.clients && IsOp(moment, name, inst, PtrOf(moment, acts[i].fd))
  }

  /**
   * Main result: settings of an instance that differ between two moments were changed by one of its operators between.
   */
  lemma {:induction false} SettingsHistory(k: Control, acts: seq<Act>, name: string, inst: nat)
    requires Inv(k) && Legal(k, acts) && SameChannel(k, name, inst) && SameChannel(PerformAll(k, acts), name, inst)
    ensures SameSettings(PerformAll(k, acts).channels[name], k.channels[name])
            || exists i :: OperatorSetModes(k, acts, i, name, inst)
    decreases |acts|
  {
    if acts != [] {
      var i := |acts| - 1;
      var front := acts[..i];
      var was := PerformAll(k, front);
      LegalRunKeepsInv(k, front);
      NextIdGrows(k, front);
      InstanceIsOld(was, acts[i], name, inst);
      hide Inv, Allowed, Perform, IsOp;
      SettingsHistory(k, front, name, inst);
      SettingsNeedOperator(was, acts[i], name);
      if exists j :: OperatorSetModes(k, front, j, name, inst) {
        var j :| OperatorSetModes(k, front, j, name, inst);
        SameMoment(k, acts, j, name, inst);
      } else if !SameSettings(PerformAll(k, acts).channels[name], was.channels[name]) {
        assert OperatorSetModes(k, acts, i, name, inst);
      }
    }
  }

  lemma SameMoment(k: Control, acts: seq<Act>, j: nat, name: string, inst: nat)
    requires acts != [] && Legal(k, acts) && Legal(k, acts[..|acts| - 1])
    requires OperatorSetModes(k, acts[..|acts| - 1], j, name, inst)
    ensures OperatorSetModes(k, acts, j, name, inst)
  {
    hide Perform, Allowed;
    assert acts[..|acts| - 1][..j] == acts[..j];
  }

  lemma {:induction false} NextIdGrows(k: Control, acts: seq<Act>)
    requires Inv(k) && Legal(k, acts)
    ensures k.nextId <= PerformAll(k, acts).nextId
    decreases |acts|
  {
    if acts != [] {
      var front := acts[..|acts| - 1];
      NextIdGrows(k, front);
      LegalRunKeepsInv(k, front);
      InstanceIsOld(PerformAll(k, front), acts[|acts| - 1], "", 0);
    }
  }

  /** Main result: an instance that has no operator never gets one again, since only operators make operators. */
  lemma {:induction false} OperatorsNeverReturn(k: Control, acts: seq<Act>, name: string, inst: nat)
    requires Inv(k) && Legal(k, acts) && SameChannel(k, name, inst) && k.channels[name].operators == map[]
    ensures SameChannel(PerformAll(k, acts), name, inst) ==> PerformAll(k, acts).channels[name].operators == map[]
    decreases |acts|
  {
    if acts != [] && SameChannel(PerformAll(k, acts), name, inst) {
      var front, a := acts[..|acts| - 1], acts[|acts| - 1];
      var was, ch := PerformAll(k, front), PerformAll(k, acts).channels[name];
      OperatorsNeverReturn(k, front, name, inst);
      LegalRunKeepsInv(k, front);
      NextIdGrows(k, front);
      hide Inv, Allowed, Perform;
      forall n | n in ch.operators ensures false {
        assert ch.operators[n] in ch.operators.Values;
        OperatorOrigin(was, a, name, inst, ch.operators[n]);
        InstanceIsOld(was, a, name, inst);
      }
    }
  }

  /** So its settings stay as they are for as long as it exists. */
  lemma OperatorlessIsFrozen(k: Control, acts: seq<Act>, name: string, inst: nat)
    requires Inv(k) && Legal(k, acts) && SameChannel(k, name, inst) && k.channels[name].operators == map[]
    ensures SameChannel(PerformAll(k, acts), name, inst) ==>
              SameSettings(PerformAll(k, acts).channels[name], k.channels[name])
  {
    if SameChannel(PerformAll(k, acts), name, inst) {
      SettingsHistory(k, acts, name, inst);
      hide Inv, SameSettings;
      if i :| OperatorSetModes(k, acts, i, name, inst) {
        OperatorsNeverReturn(k, acts[..i], name, inst);
      }
    }
  }
}
