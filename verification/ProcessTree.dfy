/** The process tree of phase2/pcb.c: child lists threaded through child and nextSib. */
module ProcessTree {
  import opened ProcessQueues

  /** A child list: its first pcb, that pcb's own children, and its younger-to-older siblings. */
  datatype Forest = Nil | Cons(pcb: Pcb, kids: Forest, sibs: Forest)

  ghost function Nodes(f: Forest): set<Pcb> {
    match f
    case Nil => {}
    case Cons(p, k, s) => {p} + Nodes(k) + Nodes(s)
  }

  /** No pcb occurs twice: every pcb is in at most one child list, and no pcb is below itself. */
  ghost predicate Distinct(f: Forest) {
    match f
    case Nil => true
    case Cons(p, k, s) =>
      Distinct(k) && Distinct(s) && p !in Nodes(k) && p !in Nodes(s) && Nodes(k) !! Nodes(s)
  }

  /** The pointers starting at ptr spell out f. */
  ghost predicate Linked(ptr: Pcb?, f: Forest)
    reads Nodes(f)`child, Nodes(f)`nextSib
  {
    match f
    case Nil => ptr == null
    case Cons(p, k, s) => ptr == p && Linked(p.child, k) && Linked(p.nextSib, s)
  }

  ghost function KidsOf(f: Forest, p: Pcb): (k: Forest)
    ensures Nodes(k) <= Nodes(f)
    ensures p !in Nodes(f) ==> k == Nil
    ensures Distinct(f) ==> Distinct(k) && p !in Nodes(k)
  {
    match f
    case Nil => Nil
    case Cons(x, k, s) =>
      if x == p then k else if p in Nodes(k) then KidsOf(k, p) else KidsOf(s, p)
  }

  /** f with the children of p replaced by k'. */
  ghost function SetKids(f: Forest, p: Pcb, k': Forest): Forest {
    match f
    case Nil => Nil
    case Cons(x, k, s) =>
      if x == p then Cons(x, k', s)
      else if p in Nodes(k) then Cons(x, SetKids(k, p, k'), s)
      else Cons(x, k, SetKids(s, p, k'))
  }

  lemma {:induction false} KidsLinked(ptr: Pcb?, f: Forest, p: Pcb)
    requires Linked(ptr, f) && p in Nodes(f)
    ensures Linked(p.child, KidsOf(f, p))
  {
    match f
    case Cons(x, k, s) =>
      if x == p {
      } else if p in Nodes(k) {
        KidsLinked(x.child, k, p);
      } else {
        KidsLinked(x.nextSib, s, p);
      }
  }

  lemma {:induction false} SetKidsNodes(f: Forest, p: Pcb, k': Forest)
    requires Distinct(f) && p in Nodes(f) && Distinct(k')
    requires Nodes(k') !! Nodes(f) - Nodes(KidsOf(f, p))
    ensures Distinct(SetKids(f, p, k'))
    ensures Nodes(SetKids(f, p, k')) == Nodes(f) - Nodes(KidsOf(f, p)) + Nodes(k')
    ensures p in Nodes(SetKids(f, p, k')) && KidsOf(SetKids(f, p, k'), p) == k'
  {
    match f
    case Cons(x, k, s) =>
      if x == p {
      } else if p in Nodes(k) {
        SetKidsNodes(k, p, k');
      } else {
        SetKidsNodes(s, p, k');
      }
  }

  /** The pcbs of f that are not below p. */
  ghost function Outside(f: Forest, p: Pcb): set<Pcb> {
    Nodes(f) - Nodes(KidsOf(f, p))
  }

  /** The pointers spell out f, with nothing said about the children of p. */
  ghost predicate LinkedAround(ptr: Pcb?, f: Forest, p: Pcb)
    requires Distinct(f) && p in Nodes(f)
    reads Outside(f, p)`nextSib, (Outside(f, p) - {p})`child
  {
    match f
    case Cons(x, k, s) =>
      && ptr == x
      && (if x == p then Linked(x.nextSib, s)
          else if p in Nodes(k) then LinkedAround(x.child, k, p) && Linked(x.nextSib, s)
          else Linked(x.child, k) && LinkedAround(x.nextSib, s, p))
  }

  lemma {:induction false} LeaveHole(ptr: Pcb?, f: Forest, p: Pcb)
    requires Distinct(f) && p in Nodes(f) && Linked(ptr, f)
    ensures LinkedAround(ptr, f, p)
  {
    match f
    case Cons(x, k, s) =>
      if x == p {
      } else if p in Nodes(k) {
        LeaveHole(x.child, k, p);
      } else {
        LeaveHole(x.nextSib, s, p);
      }
  }

  lemma {:induction false} FillHole(ptr: Pcb?, f: Forest, p: Pcb, k': Forest)
    requires Distinct(f) && p in Nodes(f) && LinkedAround(ptr, f, p) && Linked(p.child, k')
    ensures Linked(ptr, SetKids(f, p, k'))
  {
    match f
    case Cons(x, k, s) =>
      if x == p {
      } else if p in Nodes(k) {
        FillHole(x.child, k, p, k');
      } else {
        FillHole(x.nextSib, s, p, k');
      }
  }

  /** A leaf stays a leaf when another pcb's children are replaced. */
  lemma {:induction false} LeafKept(f: Forest, r: Pcb, k': Forest, p: Pcb)
    requires Distinct(f) && r in Nodes(f) && p != r && KidsOf(f, p) == Nil
    requires Distinct(k') && Nodes(k') !! Nodes(f) - Nodes(KidsOf(f, r))
    requires KidsOf(k', p) == Nil
    ensures KidsOf(SetKids(f, r, k'), p) == Nil
  {
    match f
    case Cons(x, k, s) =>
      if x == r {
      } else if r in Nodes(k) {
        SetKidsNodes(k, r, k');
        LeafKept(k, r, k', p);
      } else {
        SetKidsNodes(s, r, k');
        LeafKept(s, r, k', p);
      }
  }

  /** Children before their parent, and each child with all below it before the next sibling. */
  ghost function PostOrder(f: Forest): seq<Pcb> {
    match f
    case Nil => []
    case Cons(p, k, s) => PostOrder(k) + [p] + PostOrder(s)
  }

  /** The pcbs of the list itself, without their descendants. */
  ghost function Tops(f: Forest): (t: set<Pcb>)
    ensures t <= Nodes(f)
  {
    match f
    case Nil => {}
    case Cons(p, _, s) => {p} + Tops(s)
  }

  ghost predicate ChildOf(f: Forest, c: Pcb, p: Pcb) {
    p in Nodes(f) && c in Tops(KidsOf(f, p))
  }

  /** A pcb that is not at the top has a parent. */
  lemma {:induction false} ParentExists(f: Forest, c: Pcb) returns (p: Pcb)
    requires Distinct(f) && c in Nodes(f) && c !in Tops(f)
    ensures ChildOf(f, c, p) && p != c
  {
    match f
    case Cons(x, k, s) =>
      if c in Tops(k) {
        p := x;
      } else if c in Nodes(k) {
        p := ParentExists(k, c);
      } else {
        p := ParentExists(s, c);
      }
  }

  /** No pcb is in two child lists. */
  lemma {:induction false} ParentUnique(f: Forest, c: Pcb, p: Pcb, p': Pcb)
    requires Distinct(f) && ChildOf(f, c, p) && ChildOf(f, c, p')
    ensures p == p' && c !in Tops(f)
  {
    match f
    case Cons(x, k, s) =>
      if p == x && p' == x {
      } else if p == x {
        if p' in Nodes(k) {
          ParentUnique(k, c, p', p');
        }
      } else if p' == x {
        if p in Nodes(k) {
          ParentUnique(k, c, p, p);
        }
      } else if p in Nodes(k) {
        ParentUnique(k, c, p, if p' in Nodes(k) then p' else p);
      } else {
        ParentUnique(s, c, p, if p' in Nodes(k) then p else p');
      }
  }

  // ---------- the operations ----------

  predicate EmptyChild(p: Pcb)
    reads p`child
  {
    p.child == null
  }

  /** Make p, which may have children of its own, the youngest child of prnt. Only a first child learns
      who its parent is. */
  method InsertChild(prnt: Pcb, p: Pcb?, ghost ptr: Pcb?, ghost f: Forest, ghost own: Forest)
    requires Distinct(f) && Linked(ptr, f) && prnt in Nodes(f)
    requires p != null ==>
      p !in Nodes(f) && Linked(p.child, own) && Distinct(Cons(p, own, Nil)) && Nodes(own) !! Nodes(f)
    modifies prnt`child, One(p)`parent, One(p)`nextSib, One(p)`prevSib, KidsHead(prnt)`prevSib
    ensures p == null ==> prnt.child == old(prnt.child) && Linked(ptr, f)
    ensures p != null ==> Linked(ptr, SetKids(f, prnt, Cons(p, own, KidsOf(f, prnt))))
    ensures p != null ==> p.parent == if old(prnt.child) == null then prnt else old(p.parent)
  {
    if p == null {
      return;
    }
    ghost var kids, out := KidsOf(f, prnt), Outside(f, prnt);
    assert p !in out;
    KidsLinked(ptr, f, prnt);
    LeaveHole(ptr, f, prnt);
    label L:
    if EmptyChild(prnt) {
      prnt.child := p;
      p.parent := prnt;
      p.nextSib := null;
      p.prevSib := null;
    } else {
      p.nextSib := prnt.child;
      p.nextSib.prevSib := p;
      prnt.child := p;
    }
    assert forall x | x in out :: x.nextSib == old@L(x.nextSib) && (x != prnt ==> x.child == old@L(x.child));
    assert LinkedAround(ptr, f, prnt);
    assert Linked(p.nextSib, kids);
    assert Linked(p.child, own);
    assert Linked(prnt.child, Cons(p, own, kids));
    FillHole(ptr, f, prnt, Cons(p, own, kids));
  }

  ghost function One(p: Pcb?): set<Pcb> {
    if p == null then {} else {p}
  }

  ghost function KidsHead(p: Pcb): set<Pcb>
    reads p`child
  {
    if p.child == null then {} else {p.child}
  }

  /** Take the youngest child of p out of its child list. */
  method RemoveChild(p: Pcb, ghost kids: Forest) returns (r: Pcb?)
    requires Linked(p.child, kids) && p !in Nodes(kids) && Distinct(kids)
    modifies p`child
    ensures kids == Nil ==> r == null && p.child == null
    ensures kids != Nil ==> r == kids.pcb && Linked(r.child, kids.kids) && Linked(p.child, kids.sibs)
  {
    if p.child == null {
      return null;
    }
    var child := p.child;
    p.child := p.child.nextSib;
    return child;
  }

  // ---------- outChild ----------

  /** The child list without p, which takes its own children along. */
  ghost function DropTop(f: Forest, p: Pcb): Forest {
    match f
    case Nil => Nil
    case Cons(x, k, s) => if x == p then s else Cons(x, k, DropTop(s, p))
  }

  /** The child in front of p. */
  ghost function Before(f: Forest, p: Pcb): (b: Pcb)
    requires f.Cons? && f.pcb != p && p in Tops(f)
    ensures b in Nodes(f)
  {
    if f.sibs.pcb == p then f.pcb else Before(f.sibs, p)
  }

  /** The pointers spell out f, with nothing said about the link to p. */
  ghost predicate LinkedTo(ptr: Pcb?, f: Forest, p: Pcb)
    requires Distinct(f) && f.Cons? && f.pcb != p && p in Tops(f)
    reads Nodes(f)`child, (Nodes(f) - {Before(f, p)})`nextSib
  {
    && ptr == f.pcb && Linked(f.pcb.child, f.kids)
    && if f.sibs.pcb == p then Linked(p.child, f.sibs.kids) && Linked(p.nextSib, f.sibs.sibs)
       else LinkedTo(f.pcb.nextSib, f.sibs, p)
  }

  lemma {:induction false} LeaveLink(ptr: Pcb?, f: Forest, p: Pcb)
    requires Distinct(f) && f.Cons? && f.pcb != p && p in Tops(f) && Linked(ptr, f)
    ensures LinkedTo(ptr, f, p)
  {
    if f.sibs.pcb != p {
      LeaveLink(f.pcb.nextSib, f.sibs, p);
    }
  }

  lemma {:induction false} CloseLink(ptr: Pcb?, f: Forest, p: Pcb)
    requires Distinct(f) && f.Cons? && f.pcb != p && p in Tops(f) && LinkedTo(ptr, f, p)
    requires Before(f, p).nextSib == p.nextSib
    ensures Linked(ptr, DropTop(f, p))
  {
    if f.sibs.pcb != p {
      CloseLink(f.pcb.nextSib, f.sibs, p);
    }
  }

  /** Take p out of the child list of the process its parent field names; null if it is not there. */
  method OutChild(p: Pcb, ghost kids: Forest) returns (r: Pcb?)
    requires p.parent != null ==> Distinct(kids) && Linked(p.parent.child, kids) && p.parent !in Nodes(kids)
    modifies if p.parent == null then {} else {p.parent}`child, Nodes(kids)`nextSib, Nodes(kids)`prevSib
    ensures r == p <==> p.parent != null && p in Tops(kids)
    ensures r != p ==> r == null
    ensures r == p ==> Linked(p.parent.child, DropTop(kids, p))
    ensures r == null && p.parent != null ==> Linked(p.parent.child, kids)
  {
    if p.parent == null {
      return null;
    }
    var prnt := p.parent;
    var currC := prnt.child;
    var lastChild: Pcb? := null;
    if currC == p {
      r := RemoveChild(prnt, kids);
      return;
    }
    ghost var rest := kids;
    while currC != null
      invariant Linked(prnt.child, kids) && Linked(currC, rest) && Distinct(rest) && Nodes(rest) <= Nodes(kids)
      invariant p in Tops(kids) <==> p in Tops(rest)
      invariant rest == kids ==> lastChild == null && currC != p
      invariant rest != kids ==> lastChild != null
      invariant rest != kids && p in Tops(rest) && rest.pcb == p ==> lastChild == Before(kids, p)
      invariant rest.Cons? && rest.pcb != p && p in Tops(rest) ==> Before(rest, p) == Before(kids, p)
      decreases rest
    {
      if currC == p {
        LeaveLink(prnt.child, kids, p);
        lastChild.nextSib := p.nextSib;
        lastChild.prevSib := p.prevSib;
        CloseLink(prnt.child, kids, p);
        return p;
      }
      lastChild := currC;
      currC := currC.nextSib;
      rest := rest.sibs;
    }
    return null;
  }

  /** Only p and its own descendants leave; the other children stay, in their order. */
  lemma {:induction false} DropTopKeeps(f: Forest, p: Pcb)
    requires Distinct(f) && p in Tops(f)
    ensures Distinct(DropTop(f, p)) && Tops(DropTop(f, p)) == Tops(f) - {p}
    ensures Nodes(DropTop(f, p)) == Nodes(f) - Nodes(KidsOf(f, p)) - {p}
    ensures forall x | x in Nodes(DropTop(f, p)) :: KidsOf(DropTop(f, p), x) == KidsOf(f, x)
  {
    if f.pcb != p {
      DropTopKeeps(f.sibs, p);
    }
  }

  /** A second child was never told its parent, so outChild leaves it where it is. */
  method SecondChildStays() returns (prnt: Pcb, first: Pcb, second: Pcb, r: Pcb?)
    ensures Linked(prnt, Cons(prnt, Cons(second, Nil, Cons(first, Nil, Nil)), Nil))
    ensures second in Tops(KidsOf(Cons(prnt, Cons(second, Nil, Cons(first, Nil, Nil)), Nil), prnt)) && r == null
  {
    prnt := new Pcb();
    first := new Pcb();
    second := new Pcb();
    InsertChild(prnt, first, prnt, Cons(prnt, Nil, Nil), Nil);
    InsertChild(prnt, second, prnt, Cons(prnt, Cons(first, Nil, Nil), Nil), Nil);
    r := OutChild(second, Nil);
  }
}
