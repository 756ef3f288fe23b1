/** Replaying an HTML-cache snapshot (`_rescope_cached_html()` in packages/core/src/component.ts): every scoped
    id is moved to a cid of the replaying component. */
module Rescoping {
  import opened Uids

  /** Snapshot markup: plain text, an `id="name:cid"`, or a `data-cid="cid"`. */
  datatype Piece = Text(s: string) | ScopedId(name: string, cid: string) | DataCid(cid: string)

  function Moved(p: Piece, cids: map<string, string>): Piece {
    match p
    case Text(_) => p
    case ScopedId(name, cid) => if cid in cids then ScopedId(name, cids[cid]) else p
    case DataCid(cid) => if cid in cids then DataCid(cids[cid]) else p
  }

  ghost predicate Injective(cids: map<string, string>) {
    forall a, b :: a in cids && b in cids && cids[a] == cids[b] ==> a == b
  }

  /** The owner's cid becomes `own`; every other becomes an id given between `from` and `to`. */
  ghost predicate Fresh(cids: map<string, string>, owner: string, own: string, from: nat, to: nat) {
    && owner in cids && cids[owner] == own
    && forall a :: a in cids && a != owner ==> exists n: nat :: from <= n < to && cids[a] == Nth(n)
  }

  /** `remap()`: the cid this one moves to, a fresh one if it is new. */
  method Remap(cids: map<string, string>, old_: string, uid: Uid, owner: string, own: string, ghost from: nat)
    returns (more: map<string, string>)
    requires uid.Valid() && from <= uid.issued
    requires Injective(cids) && Fresh(cids, owner, own, from, uid.issued)
    requires exists k: nat :: k < from && own == Nth(k)
    modifies uid
    ensures uid.Valid() && from <= uid.issued
    ensures Injective(more) && Fresh(more, owner, own, from, uid.issued)
    ensures old_ in more && forall a :: a in cids ==> a in more && more[a] == cids[a]
  {
    if old_ in cids { return cids; }
    ghost var n := uid.issued;
    var fresh_ := uid.Take();
    more := cids[old_ := fresh_];
    forall a | a in cids ensures cids[a] != fresh_ {
      var m: nat :| m < n && cids[a] == Nth(m);
      NeverRepeats(m, n);
    }
  }

  /** Is the piece one that this pass rewrites?  The first pass rewrites ids, the second debug cids. */
  predicate InPass(p: Piece, debug: bool) { if debug then p.DataCid? else p.ScopedId? }

  predicate Passed(p: Piece, q: Piece, cids: map<string, string>, debug: bool) {
    if InPass(p, debug) then p.cid in cids && q == Moved(p, cids) else q == p
  }

  predicate Extends(more: map<string, string>, cids: map<string, string>) {
    forall a :: a in cids ==> a in more && more[a] == cids[a]
  }

  /** One `replace()` over the markup. */
  method Pass(pieces: seq<Piece>, debug: bool, cids: map<string, string>, uid: Uid, owner: string, own: string,
              ghost from: nat)
    returns (html: seq<Piece>, more: map<string, string>)
    requires uid.Valid() && from <= uid.issued
    requires Injective(cids) && Fresh(cids, owner, own, from, uid.issued)
    requires exists k: nat :: k < from && own == Nth(k)
    modifies uid
    ensures uid.Valid() && from <= uid.issued
    ensures Injective(more) && Fresh(more, owner, own, from, uid.issued) && Extends(more, cids)
    ensures |html| == |pieces| && forall i :: 0 <= i < |html| ==> Passed(pieces[i], html[i], more, debug)
  {
    hide Injective, Fresh, Nth;
    more, html := cids, [];
    for i := 0 to |pieces|
      invariant uid.Valid() && from <= uid.issued && Extends(more, cids)
      invariant Injective(more) && Fresh(more, owner, own, from, uid.issued)
      invariant |html| == i && forall j :: 0 <= j < i ==> Passed(pieces[j], html[j], more, debug)
    {
      var p := pieces[i];
      if InPass(p, debug) {
        more := Remap(more, p.cid, uid, owner, own, from);
        p := Moved(p, more);
      }
      html := html + [p];
    }
  }

  /** No cid of the markup is one of the first `from` that were issued, but for the component's own. */
  ghost predicate NothingOld(html: seq<Piece>, own: string, from: nat) {
    forall i, m: nat :: 0 <= i < |html| && !html[i].Text? && m < from && html[i].cid == Nth(m) ==> html[i].cid == own
  }

  /** `_rescope_cached_html()`: all the ids are moved, then all the debug cids, through one map. */
  method Rescope(snapshot: seq<Piece>, owner: string, own: string, uid: Uid)
    returns (html: seq<Piece>, cids: map<string, string>)
    requires uid.Valid() && exists k: nat :: k < uid.issued && own == Nth(k)
    modifies uid
    ensures uid.Valid() && old(uid.issued) <= uid.issued
    ensures Injective(cids) && Fresh(cids, owner, own, old(uid.issued), uid.issued)
    ensures |html| == |snapshot|
    ensures forall i :: 0 <= i < |html| ==>
      match snapshot[i]
      case Text(_) => html[i] == snapshot[i]
      case ScopedId(name, cid) => cid in cids && html[i] == ScopedId(name, cids[cid])
      case DataCid(cid) => cid in cids && html[i] == DataCid(cids[cid])
    ensures NothingOld(html, own, old(uid.issued))
  {
    ghost var from := uid.issued;
    cids := map[owner := own];
    var ids: seq<Piece>;
    ids, cids := Pass(snapshot, false, cids, uid, owner, own, from);
    ghost var first := cids;
    html, cids := Pass(ids, true, cids, uid, owner, own, from);
    forall i | 0 <= i < |html| ensures (snapshot[i].Text? || snapshot[i].cid in cids) &&
        html[i] == Moved(snapshot[i], cids) {
      assert Passed(snapshot[i], ids[i], first, false) && Passed(ids[i], html[i], cids, true);
    }
    forall i, m: nat | 0 <= i < |html| && !html[i].Text? && m < from && html[i].cid == Nth(m)
      ensures html[i].cid == own
    {
      IssuedLater(cids, owner, own, from, uid.issued, snapshot[i].cid, m);
    }
  }

  lemma IssuedLater(cids: map<string, string>, owner: string, own: string, from: nat, to: nat, cid: string, m: nat)
    requires Fresh(cids, owner, own, from, to) && cid in cids && cids[cid] == Nth(m) && m < from
    ensures cids[cid] == own
  {
    hide Nth;
    if cid != owner {
      var n: nat :| from <= n < to && cids[cid] == Nth(n);
      NeverRepeats(m, n);
    }
  }

  /** Two components that replay a snapshot share no cid: neither the second's own nor its fresh ids are among
      those the first was given. */
  lemma NothingShared(first: map<string, string>, second: map<string, string>, owner: string, j: nat, k: nat,
                      from1: nat, to1: nat, from2: nat, to2: nat, a: string, b: string)
    requires Fresh(first, owner, Nth(j), from1, to1) && Fresh(second, owner, Nth(k), from2, to2)
    requires j < from1 <= to1 <= from2 && k < from2 && j != k && !(from1 <= k < to1)
    requires a in first && b in second
    ensures first[a] != second[b]
  {
    hide Nth;
    var m := Given(first, owner, j, from1, to1, a);
    var n := Given(second, owner, k, from2, to2, b);
    NeverRepeats(m, n);
  }

  lemma Given(cids: map<string, string>, owner: string, j: nat, from: nat, to: nat, a: string) returns (n: nat)
    requires Fresh(cids, owner, Nth(j), from, to) && a in cids
    ensures cids[a] == Nth(n) && (n == j || from <= n < to)
  {
    hide Nth;
    if a == owner {
      n := j;
    } else {
      n :| from <= n < to && cids[a] == Nth(n);
    }
  }
}
