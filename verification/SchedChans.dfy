// How the channel invariant moves: one task joins or leaves one channel's queues, or a
// select joins or leaves the queues of every channel it names.
module SchedChans {
  import opened Common
  import opened SchedState
  import opened SchedSteps
  import opened SchedMachine
  import opened SchedInvariant

  // On some channel queue.
  predicate ChanParked(st: State, t: TaskId, limbo: set<TaskId>) {
    && Alive(st, t) && t !in limbo
    && (st.tasks[t].park.OnChan? || st.tasks[t].park.OnSelect?)
  }

  // The same view of task t for the channel invariant.
  predicate SameParked(st: State, st': State, t: TaskId, limbo: set<TaskId>, limbo': set<TaskId>) {
    && (ChanParked(st, t, limbo) <==> ChanParked(st', t, limbo'))
    && (ChanParked(st, t, limbo) ==>
          st'.tasks[t].park == st.tasks[t].park && st'.tasks[t].regs == st.tasks[t].regs)
  }

  lemma ChansFrame(st: State, st': State, limbo: set<TaskId>, limbo': set<TaskId>)
    requires ChansOk(st, limbo)
    requires st'.chans == st.chans
    requires forall ch :: ch in st.chans ==> st.chans[ch].scope in st'.scopes
    requires forall t :: SameParked(st, st', t, limbo, limbo')
    ensures ChansOk(st', limbo')
  {
    forall ch | ch in st'.chans ensures ChanOk(st', ch, limbo') {
      assert ChanOk(st, ch, limbo);
      ChanFrame1(st, st', ch, limbo, limbo');
    }
    forall t | t in st'.tasks && Alive(st', t) && t !in limbo' ensures ParkTargetOk(st', t) {
      assert SameParked(st, st', t, limbo, limbo');
      assert ChanParked(st, t, limbo) ==> ParkTargetOk(st, t);
    }
  }

  lemma ChanFrame1(st: State, st': State, ch: ChanId, limbo: set<TaskId>, limbo': set<TaskId>)
    requires ch in st.chans && ChanOk(st, ch, limbo)
    requires ch in st'.chans && st'.chans[ch] == st.chans[ch]
    requires st.chans[ch].scope in st'.scopes
    requires forall t :: SameParked(st, st', t, limbo, limbo')
    ensures ChanOk(st', ch, limbo')
  {
    var c := st.chans[ch];
    forall t
      ensures t in c.sendq <==>
        Alive(st', t) && t !in limbo' && st'.tasks[t].park == OnChan(ch, true)
      ensures t in c.recvq <==>
        Alive(st', t) && t !in limbo' && st'.tasks[t].park == OnChan(ch, false)
    {
      assert SameParked(st, st', t, limbo, limbo');
    }
    forall w
      ensures w in c.selq <==>
        && Alive(st', w.task) && w.task !in limbo' && st'.tasks[w.task].park == OnSelect
        && w.index < |st'.tasks[w.task].regs| && st'.tasks[w.task].regs[w.index] == ch
    {
      assert SameParked(st, st', w.task, limbo, limbo');
    }
  }

  // ---- One channel changes, and at most one task's place on it ----

  predicate ShapeOk(c: Chan) {
    && |c.buf| <= c.cap
    && (c.sendq != [] ==> |c.buf| == c.cap && c.recvq == [] && c.selq == [])
    && (c.recvq != [] || c.selq != [] ==> c.buf == [])
  }

  predicate OnlyOn(st: State, t: TaskId, ch: ChanId, limbo: set<TaskId>) {
    ChanParked(st, t, limbo) ==> st.tasks[t].park.OnChan? && st.tasks[t].park.chan == ch
  }

  ghost predicate OneChan(st: State, st': State, ch: ChanId, w: TaskId, limbo: set<TaskId>,
                          limbo': set<TaskId>) {
    && ch in st.chans && ch in st'.chans && st'.chans == st.chans[ch := st'.chans[ch]]
    && (var c, c' := st.chans[ch], st'.chans[ch];
        && c'.scope == c.scope && c'.cap == c.cap && ShapeOk(c')
        && NoDup(c'.sendq) && NoDup(c'.recvq)
        && c'.selq == c.selq
        && (forall u :: u != w ==> (u in c'.sendq <==> u in c.sendq))
        && (forall u :: u != w ==> (u in c'.recvq <==> u in c.recvq))
        && (w in c'.sendq <==> ChanParked(st', w, limbo') && st'.tasks[w].park == OnChan(ch, true))
        && (w in c'.recvq <==> ChanParked(st', w, limbo') && st'.tasks[w].park == OnChan(ch, false)))
    && OnlyOn(st, w, ch, limbo) && OnlyOn(st', w, ch, limbo')
    && (forall u :: u != w ==> SameParked(st, st', u, limbo, limbo'))
    && st'.scopes.Keys == st.scopes.Keys
  }

  lemma OneChanSelf(st: State, st': State, ch: ChanId, w: TaskId, limbo: set<TaskId>,
                    limbo': set<TaskId>)
    requires ch in st.chans && ChanOk(st, ch, limbo)
    requires OneChan(st, st', ch, w, limbo, limbo')
    ensures ChanOk(st', ch, limbo')
  {
    var c, c' := st.chans[ch], st'.chans[ch];
    forall t
      ensures t in c'.sendq <==>
        Alive(st', t) && t !in limbo' && st'.tasks[t].park == OnChan(ch, true)
      ensures t in c'.recvq <==>
        Alive(st', t) && t !in limbo' && st'.tasks[t].park == OnChan(ch, false)
    {
      assert t != w ==> SameParked(st, st', t, limbo, limbo');
    }
    forall r
      ensures r in c'.selq <==>
        && Alive(st', r.task) && r.task !in limbo' && st'.tasks[r.task].park == OnSelect
        && r.index < |st'.tasks[r.task].regs| && st'.tasks[r.task].regs[r.index] == ch
    {
      assert r.task != w ==> SameParked(st, st', r.task, limbo, limbo');
    }
  }

  lemma OneChanOther(st: State, st': State, ch: ChanId, w: TaskId, limbo: set<TaskId>,
                     limbo': set<TaskId>, ch': ChanId)
    requires ch' in st.chans && ch' != ch && ChanOk(st, ch', limbo)
    requires OneChan(st, st', ch, w, limbo, limbo')
    ensures ch' in st'.chans && ChanOk(st', ch', limbo')
  {
    var c' := st'.chans[ch'];
    assert c' == st.chans[ch'];
    forall t
      ensures t in c'.sendq <==>
        Alive(st', t) && t !in limbo' && st'.tasks[t].park == OnChan(ch', true)
      ensures t in c'.recvq <==>
        Alive(st', t) && t !in limbo' && st'.tasks[t].park == OnChan(ch', false)
    {
      assert t != w ==> SameParked(st, st', t, limbo, limbo');
    }
    forall r
      ensures r in c'.selq <==>
        && Alive(st', r.task) && r.task !in limbo' && st'.tasks[r.task].park == OnSelect
        && r.index < |st'.tasks[r.task].regs| && st'.tasks[r.task].regs[r.index] == ch'
    {
      assert r.task != w ==> SameParked(st, st', r.task, limbo, limbo');
    }
  }

  lemma ChansOne(st: State, st': State, ch: ChanId, w: TaskId, limbo: set<TaskId>,
                 limbo': set<TaskId>)
    requires ChansOk(st, limbo)
    requires OneChan(st, st', ch, w, limbo, limbo')
    ensures ChansOk(st', limbo')
  {
    hide ChanOk;
    forall ch' | ch' in st'.chans ensures ChanOk(st', ch', limbo') {
      if ch' == ch {
        OneChanSelf(st, st', ch, w, limbo, limbo');
      } else {
        OneChanOther(st, st', ch, w, limbo, limbo', ch');
      }
    }
    forall t | t in st'.tasks && Alive(st', t) && t !in limbo' ensures ParkTargetOk(st', t) {
      assert t != w ==> SameParked(st, st', t, limbo, limbo');
      assert ChanParked(st, t, limbo) ==> ParkTargetOk(st, t);
    }
  }

  // ---- Select: every channel at once ----

  ghost function RegSet(t: TaskId, i: nat, n: nat): set<SelReg> {
    set j | i <= j < n :: SelReg(t, j)
  }

  // Unlinking touches select queues only.
  lemma {:induction false} UnlinkKeeps(chans: map<ChanId, Chan>, t: TaskId, regs: seq<ChanId>, i: nat)
    requires UnlinkFrom(chans, t, regs, i).Next?
    ensures var r := UnlinkFrom(chans, t, regs, i).value;
      r.Keys == chans.Keys && forall ch :: ch in chans ==> r[ch] == chans[ch].(selq := r[ch].selq)
    decreases |regs| - i
  {
    if i < |regs| {
      var c := chans[regs[i]];
      UnlinkKeeps(chans[regs[i] := c.(selq := Without(c.selq, {SelReg(t, i)}))], t, regs, i + 1);
    }
  }

  // select_unlink_all takes exactly t's registrations off every channel, and faults on none.
  lemma {:induction false} UnlinkEffect(chans: map<ChanId, Chan>, t: TaskId, regs: seq<ChanId>,
                                        i: nat)
    requires i <= |regs|
    requires forall j :: i <= j < |regs| ==>
               regs[j] in chans && SelReg(t, j) in chans[regs[j]].selq
    requires forall ch, j :: ch in chans && i <= j < |regs| && SelReg(t, j) in chans[ch].selq ==>
               regs[j] == ch
    ensures UnlinkFrom(chans, t, regs, i).Next?
    ensures var r := UnlinkFrom(chans, t, regs, i).value;
      && r.Keys == chans.Keys
      && forall ch :: ch in chans ==>
           r[ch] == chans[ch].(selq := Without(chans[ch].selq, RegSet(t, i, |regs|)))
    decreases |regs| - i
  {
    if i == |regs| {
      assert RegSet(t, i, |regs|) == {};
      forall ch | ch in chans
        ensures chans[ch] == chans[ch].(selq := Without(chans[ch].selq, {}))
      {
        WithoutNothing(chans[ch].selq, {});
      }
    } else {
      var ch0 := regs[i];
      var c := chans[ch0];
      var chans1 := chans[ch0 := c.(selq := Without(c.selq, {SelReg(t, i)}))];
      UnlinkEffect(chans1, t, regs, i + 1);
      var r := UnlinkFrom(chans1, t, regs, i + 1).value;
      assert RegSet(t, i, |regs|) == {SelReg(t, i)} + RegSet(t, i + 1, |regs|);
      forall ch | ch in chans
        ensures r[ch] == chans[ch].(selq := Without(chans[ch].selq, RegSet(t, i, |regs|)))
      {
        WithoutTwice(chans[ch].selq, {SelReg(t, i)}, RegSet(t, i + 1, |regs|));
        if ch != ch0 {
          WithoutNothing(chans[ch].selq, {SelReg(t, i)});
        }
      }
    }
  }

  // Registration adds exactly one entry per position of the list, after what was there.
  lemma {:induction false} RegisterEffect(chans: map<ChanId, Chan>, t: TaskId, chs: seq<ChanId>,
                                          i: nat)
    requires i <= |chs|
    requires forall j :: 0 <= j < |chs| ==> chs[j] in chans
    requires forall ch :: ch in chans ==> NoDup(chans[ch].selq)
    requires forall ch, w :: ch in chans && w in chans[ch].selq && w.task == t ==> w.index < i
    ensures Register(chans, t, chs, i).Next?
    ensures var r := Register(chans, t, chs, i).value;
      && r.Keys == chans.Keys
      && forall ch :: ch in chans ==>
           && r[ch] == chans[ch].(selq := r[ch].selq)
           && NoDup(r[ch].selq)
           && (forall w :: w in r[ch].selq <==>
                 || w in chans[ch].selq
                 || (w.task == t && i <= w.index < |chs| && chs[w.index] == ch))
    decreases |chs| - i
  {
    if i < |chs| {
      var c := chans[chs[i]];
      var q := c.selq + [SelReg(t, i)];
      var chans1 := chans[chs[i] := c.(selq := q)];
      NoDupSnoc(c.selq, SelReg(t, i));
      RegisterEffect(chans1, t, chs, i + 1);
      var r := Register(chans1, t, chs, i + 1).value;
      forall ch | ch in chans
        ensures r[ch] == chans[ch].(selq := r[ch].selq)
        ensures forall w :: w in r[ch].selq <==>
                  || w in chans[ch].selq
                  || (w.task == t && i <= w.index < |chs| && chs[w.index] == ch)
      {
        OneMore(chans[ch].selq, chans1[ch].selq, r[ch].selq, t, chs, i, ch);
      }
    }
  }

  lemma OneMore(q: seq<SelReg>, q1: seq<SelReg>, r: seq<SelReg>, t: TaskId, chs: seq<ChanId>, i: nat,
                ch: ChanId)
    requires i < |chs| && q1 == if chs[i] == ch then q + [SelReg(t, i)] else q
    requires forall w :: w in r <==>
               w in q1 || (w.task == t && i + 1 <= w.index < |chs| && chs[w.index] == ch)
    ensures forall w :: w in r <==>
              w in q || (w.task == t && i <= w.index < |chs| && chs[w.index] == ch)
  {
  }

  // Task t joins or leaves the select queues of all its channels.
  ghost predicate SelectMove(st: State, st': State, t: TaskId, limbo: set<TaskId>,
                             limbo': set<TaskId>) {
    && st'.chans.Keys == st.chans.Keys && st'.scopes.Keys == st.scopes.Keys
    && (forall ch :: ch in st.chans ==>
          var c, c' := st.chans[ch], st'.chans[ch];
          && c' == c.(selq := c'.selq, log := c'.log, delivered := c'.delivered)
          && ShapeOk(c') && NoDup(c'.selq)
          && (forall w: SelReg :: w.task != t ==> (w in c'.selq <==> w in c.selq))
          && (forall w: SelReg :: w.task == t ==> (w in c'.selq <==>
                && ChanParked(st', t, limbo') && st'.tasks[t].park == OnSelect
                && w.index < |st'.tasks[t].regs| && st'.tasks[t].regs[w.index] == ch)))
    && (ChanParked(st, t, limbo) ==> st.tasks[t].park == OnSelect)
    && (ChanParked(st', t, limbo') ==> st'.tasks[t].park == OnSelect && ParkTargetOk(st', t))
    && (forall u :: u != t ==> SameParked(st, st', u, limbo, limbo'))
  }

  lemma SelectMove1(st: State, st': State, t: TaskId, limbo: set<TaskId>, limbo': set<TaskId>,
                    ch: ChanId)
    requires ch in st.chans && ChanOk(st, ch, limbo)
    requires SelectMove(st, st', t, limbo, limbo')
    ensures ch in st'.chans && ChanOk(st', ch, limbo')
  {
    var c' := st'.chans[ch];
    forall u
      ensures u in c'.sendq <==>
        Alive(st', u) && u !in limbo' && st'.tasks[u].park == OnChan(ch, true)
      ensures u in c'.recvq <==>
        Alive(st', u) && u !in limbo' && st'.tasks[u].park == OnChan(ch, false)
    {
      assert u != t ==> SameParked(st, st', u, limbo, limbo');
    }
    forall w
      ensures w in c'.selq <==>
        && Alive(st', w.task) && w.task !in limbo' && st'.tasks[w.task].park == OnSelect
        && w.index < |st'.tasks[w.task].regs| && st'.tasks[w.task].regs[w.index] == ch
    {
      assert w.task != t ==> SameParked(st, st', w.task, limbo, limbo');
    }
  }

  lemma ChansSelect(st: State, st': State, t: TaskId, limbo: set<TaskId>, limbo': set<TaskId>)
    requires ChansOk(st, limbo)
    requires SelectMove(st, st', t, limbo, limbo')
    ensures ChansOk(st', limbo')
  {
    hide ChanOk;
    forall ch | ch in st'.chans ensures ChanOk(st', ch, limbo') {
      SelectMove1(st, st', t, limbo, limbo', ch);
    }
    forall u | u in st'.tasks && Alive(st', u) && u !in limbo' ensures ParkTargetOk(st', u) {
      assert u != t ==> SameParked(st, st', u, limbo, limbo');
      assert ChanParked(st, u, limbo) ==> ParkTargetOk(st, u);
    }
  }
}
