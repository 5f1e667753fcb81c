/**
  Reference-counting discipline of the `com_ptr<T>` ownership wrapper
  (utils/com_ptr.hpp).

  Every COM object is an `Obj` identity. The reference counts of all objects
  form a ghost ledger, a multiset in which the multiplicity of an object is its
  reference count: `AddRef` adds one occurrence, `Release` removes one.

  The ownership invariant is `Accounts(l, base, holders)`: the ledger is made of
  the references owned by code outside the holders (`base`) plus exactly one
  reference for every non-null holder.
 */
module Com {

  type Obj = nat

  /** A raw interface pointer: null or the address of one object. */
  datatype Ptr = Null | Ref(obj: Obj)

  /** Reference counts of all objects: multiplicity = count. */
  type Ledger = multiset<Obj>

  /** The reference a pointer stands for, if any. */
  function Own(p: Ptr): multiset<Obj>
  {
    if p.Ref? then multiset{p.obj} else multiset{}
  }

  /** `p->AddRef()` when `p` is non-null. */
  function AddRef(l: Ledger, p: Ptr): Ledger
  {
    l + Own(p)
  }

  /** `p->Release()` when `p` is non-null. */
  function Release(l: Ledger, p: Ptr): Ledger
  {
    l - Own(p)
  }

  /** Releases every pointer of `ps`, in order. */
  function ReleaseAll(l: Ledger, ps: seq<Ptr>): Ledger
  {
    if ps == [] then l else ReleaseAll(Release(l, ps[0]), ps[1..])
  }

  /** The references held by a sequence of holders (one per non-null holder). */
  function Holdings(ps: seq<Ptr>): multiset<Obj>
  {
    if ps == [] then multiset{} else Own(ps[0]) + Holdings(ps[1..])
  }

  /** The ledger is `base` plus exactly one reference per non-null holder. */
  predicate Accounts(l: Ledger, base: Ledger, ps: seq<Ptr>)
  {
    l == base + Holdings(ps)
  }

  lemma {:induction false} HoldingsAppend(ps: seq<Ptr>, q: Ptr)
    ensures Holdings(ps + [q]) == Holdings(ps) + Own(q)
  {
    if ps == [] {
      assert ps + [q] == [q];
      assert [q][1..] == [];
    } else {
      assert (ps + [q])[1..] == ps[1..] + [q];
      HoldingsAppend(ps[1..], q);
    }
  }

  lemma {:induction false} HoldingsHeld(ps: seq<Ptr>, i: nat)
    requires i < |ps|
    ensures Own(ps[i]) <= Holdings(ps)
  {
    if i > 0 {
      HoldingsHeld(ps[1..], i - 1);
    }
  }

  lemma {:induction false} HoldingsConcat(ps: seq<Ptr>, qs: seq<Ptr>)
    ensures Holdings(ps + qs) == Holdings(ps) + Holdings(qs)
  {
    if ps == [] {
      assert ps + qs == qs;
    } else {
      assert (ps + qs)[1..] == ps[1..] + qs;
      HoldingsConcat(ps[1..], qs);
    }
  }

  /** The holdings of `a + [p] + rest`, split around `p`. */
  lemma HoldingsSplit(a: seq<Ptr>, p: Ptr, rest: seq<Ptr>)
    ensures Holdings(a + ([p] + rest)) == Holdings(a) + (Own(p) + Holdings(rest))
  {
    HoldingsConcat(a, [p] + rest);
    assert ([p] + rest)[1..] == rest;
  }

  lemma HoldingsUpdate(ps: seq<Ptr>, i: nat, q: Ptr)
    requires i < |ps|
    ensures Holdings(ps[i := q]) + Own(ps[i]) == Holdings(ps) + Own(q)
  {
    var a, rest := ps[..i], ps[i + 1..];
    assert ps == a + ([ps[i]] + rest);
    assert ps[i := q] == a + ([q] + rest);
    HoldingsSplit(a, ps[i], rest);
    HoldingsSplit(a, q, rest);
    var h, h' := Holdings(ps), Holdings(ps[i := q]);
    forall o ensures (h' + Own(ps[i]))[o] == (h + Own(q))[o] {
    }
  }

  lemma HoldingsRemove(ps: seq<Ptr>, i: nat)
    requires i < |ps|
    ensures Holdings(ps[..i] + ps[i + 1..]) + Own(ps[i]) == Holdings(ps)
  {
    var a, rest := ps[..i], ps[i + 1..];
    SplitAt(ps, i);
    HoldingsSplit(a, ps[i], rest);
    HoldingsConcat(a, rest);
    HoldingsRegroup(Holdings(a), Own(ps[i]), Holdings(rest));
  }

  lemma SplitAt(ps: seq<Ptr>, i: nat)
    requires i < |ps|
    ensures ps == ps[..i] + ([ps[i]] + ps[i + 1..])
  {
  }

  lemma HoldingsRegroup(x: multiset<Obj>, y: multiset<Obj>, z: multiset<Obj>)
    ensures x + z + y == x + (y + z)
  {
    forall o ensures (x + z + y)[o] == (x + (y + z))[o] {
    }
  }

  /** Releasing through a null pointer changes nothing. */
  lemma ReleaseNull(l: Ledger)
    ensures Release(l, Null) == l
  {
    forall o ensures Release(l, Null)[o] == l[o] {
    }
  }

  /** A reference taken and given back leaves the counts as they were. */
  lemma Cancel(base: Ledger, p: Ptr)
    ensures base + Own(p) - Own(p) == base
  {
    var l := base + Own(p);
    forall o ensures (l - Own(p))[o] == base[o] {
    }
  }

  /** Giving back one of two references taken on top of `base`. */
  lemma DropHeld(base: Ledger, held: Ptr, other: Ptr)
    ensures base + Own(held) + Own(other) - Own(held) == base + Own(other)
  {
    var l := base + Own(held) + Own(other);
    forall o ensures (l - Own(held))[o] == (base + Own(other))[o] {
    }
  }

  /** Multiset arithmetic behind replacing one holder: drop `gone`, add `gained`. */
  lemma Exchange(base: Ledger, held: multiset<Obj>, held': multiset<Obj>, gone: multiset<Obj>, gained: multiset<Obj>)
    requires gone <= held && held' + gone == held + gained
    ensures base + held - gone + gained == base + held'
  {
    forall o ensures (base + held - gone + gained)[o] == (base + held')[o] {
      assert (held' + gone)[o] == (held + gained)[o];
      assert gone[o] <= held[o];
    }
  }

  /** Copy construction adds a holder of `ps[i]` and AddRefs it once. */
  lemma AccountsCopy(l: Ledger, base: Ledger, ps: seq<Ptr>, i: nat)
    requires i < |ps| && Accounts(l, base, ps)
    ensures Accounts(AddRef(l, ps[i]), base, ps + [ps[i]])
  {
    HoldingsAppend(ps, ps[i]);
  }

  /**
    Construction from a raw pointer adopts the reference the raw owner had:
    the ledger is unchanged and the reference moves from `base` to the holder.
   */
  lemma AccountsAdopt(l: Ledger, base: Ledger, ps: seq<Ptr>, p: Ptr)
    requires Accounts(l, base, ps) && Own(p) <= base
    ensures Accounts(l, base - Own(p), ps + [p])
  {
    HoldingsAppend(ps, p);
  }

  /** Move construction: the new holder takes `ps[i]`, the source becomes null, the ledger is unchanged. */
  lemma AccountsMove(l: Ledger, base: Ledger, ps: seq<Ptr>, i: nat)
    requires i < |ps| && Accounts(l, base, ps)
    ensures Accounts(l, base, ps[i := Null] + [ps[i]])
  {
    HoldingsUpdate(ps, i, Null);
    HoldingsAppend(ps[i := Null], ps[i]);
  }

  /** The destructor of holder `i` releases its reference once. */
  lemma AccountsDestroy(l: Ledger, base: Ledger, ps: seq<Ptr>, i: nat)
    requires i < |ps| && Accounts(l, base, ps)
    ensures Accounts(Release(l, ps[i]), base, ps[..i] + ps[i + 1..])
  {
    HoldingsRemove(ps, i);
  }

  /**
    Overwriting holder `i` with `q`: the old reference is released and the new
    one is accounted for (`gained` is where it came from: an AddRef, a callee
    handing out a reference, or a raw owner giving up its own).
   */
  lemma AccountsReplace(l: Ledger, base: Ledger, ps: seq<Ptr>, i: nat, q: Ptr)
    requires i < |ps| && Accounts(l, base, ps)
    ensures Accounts(AddRef(Release(l, ps[i]), q), base, ps[i := q])
  {
    HoldingsHeld(ps, i);
    HoldingsUpdate(ps, i, q);
    Exchange(base, Holdings(ps), Holdings(ps[i := q]), Own(ps[i]), Own(q));
  }

  /** Raw-pointer assignment of a different pointer: release the old one, adopt the new one from its raw owner. */
  lemma AccountsAssignRaw(l: Ledger, base: Ledger, ps: seq<Ptr>, i: nat, p: Ptr)
    requires i < |ps| && Accounts(l, base, ps) && Own(p) <= base
    ensures Accounts(Release(l, ps[i]), base - Own(p), ps[i := p])
  {
    HoldingsHeld(ps, i);
    HoldingsUpdate(ps, i, p);
    ghost var h := Holdings(ps);
    ghost var h' := Holdings(ps[i := p]);
    AssignRawCounts(base, h, h', Own(ps[i]), Own(p));
  }

  /** Multiset arithmetic behind raw assignment: the old reference leaves the holders, the new one leaves `base`. */
  lemma AssignRawCounts(base: Ledger, h: multiset<Obj>, h': multiset<Obj>, gone: multiset<Obj>, gained: multiset<Obj>)
    requires h' + gone == h + gained && gained <= base && gone <= h
    ensures base + h - gone == base - gained + h'
  {
    forall o ensures (base + h - gone)[o] == (base - gained + h')[o] {
      assert h'[o] + gone[o] == h[o] + gained[o] by {
        assert (h' + gone)[o] == (h + gained)[o];
      }
      assert gained[o] <= base[o] && gone[o] <= h[o];
    }
  }

  /** Move assignment between two distinct holders: release the target's reference, transfer the source's. */
  lemma AccountsAssignMove(l: Ledger, base: Ledger, ps: seq<Ptr>, i: nat, j: nat)
    requires i < |ps| && j < |ps| && i != j && Accounts(l, base, ps)
    ensures Accounts(Release(l, ps[i]), base, ps[i := ps[j]][j := Null])
  {
    HoldingsHeld(ps, i);
    HoldingsUpdate(ps, i, ps[j]);
    HoldingsUpdate(ps[i := ps[j]], j, Null);
    assert ps[i := ps[j]][j] == ps[j];
    ghost var h := Holdings(ps[i := ps[j]][j := Null]);
    forall o ensures (h + Own(ps[i]))[o] == Holdings(ps)[o] {
      assert (h + Own(ps[j]))[o] == Holdings(ps[i := ps[j]])[o];
      assert (Holdings(ps[i := ps[j]]) + Own(ps[i]))[o] == (Holdings(ps) + Own(ps[j]))[o];
    }
    Exchange(base, Holdings(ps), Holdings(ps[i := ps[j]][j := Null]), Own(ps[i]), multiset{});
  }

  /** Releasing every holder returns the ledger to `base`. */
  lemma {:induction false} AccountsReleaseAll(l: Ledger, base: Ledger, ps: seq<Ptr>)
    requires Accounts(l, base, ps)
    ensures ReleaseAll(l, ps) == base
  {
    if ps != [] {
      AccountsReleaseAll(Release(l, ps[0]), base, ps[1..]);
    }
  }

  /** Releases through null pointers change nothing. */
  lemma {:induction false} ReleaseAllNulls(l: Ledger, ps: seq<Ptr>)
    requires forall i :: 0 <= i < |ps| ==> ps[i] == Null
    ensures ReleaseAll(l, ps) == l
  {
    if ps != [] {
      assert ps[0] == Null;
      assert Release(l, ps[0]) == l;
      ReleaseAllNulls(l, ps[1..]);
    }
  }

  /**
    A holder that keeps naming an object after its reference was released
    breaks the invariant: the ledger is one reference short.
   */
  lemma DanglingBreaksAccounts(l: Ledger, base: Ledger, ps: seq<Ptr>, i: nat)
    requires i < |ps| && ps[i].Ref? && Accounts(l, base, ps)
    ensures !Accounts(Release(l, ps[i]), base, ps)
    ensures Release(l, ps[i])[ps[i].obj] < (base + Holdings(ps))[ps[i].obj]
  {
    HoldingsHeld(ps, i);
  }

  /** The shared reference-count ledger of all COM objects. */
  class Counter {
    ghost var counts: Ledger

    constructor (initial: Ledger)
      ensures counts == initial
    {
      counts := initial;
    }
  }

  /** `com_ptr<T>`: owns at most one reference to the object it points at. */
  class ComPtr {
    var ptr: Ptr
    const ledger: Counter

    /** `com_ptr(T* ptr = nullptr)`: adopts `p` without AddRef. */
    constructor (counter: Counter, p: Ptr)
      ensures ledger == counter && ptr == p
      ensures counter.counts == old(counter.counts)
    {
      ledger := counter;
      ptr := p;
    }

    /** Copy construction: shares `other`'s object and AddRefs it once. */
    constructor Copy(other: ComPtr)
      modifies other.ledger
      ensures ledger == other.ledger && ptr == other.ptr
      ensures ledger.counts == AddRef(old(other.ledger.counts), other.ptr)
    {
      ledger := other.ledger;
      ptr := other.ptr;
      new;
      if ptr.Ref? {
        ledger.counts := AddRef(ledger.counts, ptr);
      }
    }

    /** Move construction: takes `other`'s pointer and nulls it; no count changes. */
    constructor Move(other: ComPtr)
      modifies other
      ensures ledger == other.ledger && ptr == old(other.ptr) && other.ptr == Null
      ensures other.ledger.counts == old(other.ledger.counts)
    {
      ledger := other.ledger;
      ptr := other.ptr;
      new;
      other.ptr := Null;
    }

    /** The destructor: one Release exactly when the pointer is non-null. */
    method Destroy()
      modifies ledger
      ensures ledger.counts == Release(old(ledger.counts), ptr)
    {
      if ptr.Ref? {
        ledger.counts := Release(ledger.counts, ptr);
      }
    }

    /** `get()`. */
    function Get(): Ptr
      reads this
    {
      ptr
    }

    /** `valid()` and `operator bool`: the pointer is non-null. */
    predicate Valid()
      reads this
    {
      ptr.Ref?
    }

    /**
      `operator T**`: releases the held reference and nulls the pointer before
      handing out its address, so a callee that writes a new pointer there
      cannot leak the old one.
     */
    method AddressOf()
      modifies this, ledger
      ensures ptr == Null
      ensures ledger.counts == Release(old(ledger.counts), old(ptr))
    {
      if ptr.Ref? {
        ledger.counts := Release(ledger.counts, ptr);
        ptr := Null;
      }
    }

    /**
      A callee writing through the address obtained from `AddressOf`: it stores
      `p` and has already AddRef'd it on the caller's behalf.
     */
    method ReceiveFromCallee(p: Ptr)
      modifies this, ledger
      ensures ptr == p
      ensures ledger.counts == AddRef(old(ledger.counts), p)
    {
      ptr := p;
      ledger.counts := AddRef(ledger.counts, p);
    }

    /** `operator=(T*)`: a no-op for the same pointer; otherwise releases the old one and adopts `p` without AddRef. */
    method AssignRaw(p: Ptr)
      modifies this, ledger
      ensures ptr == p
      ensures ledger.counts == if p == old(ptr) then old(ledger.counts) else Release(old(ledger.counts), old(ptr))
    {
      if p == ptr {
        return;
      }
      if ptr.Ref? {
        ledger.counts := Release(ledger.counts, ptr);
      }
      ptr := p;
    }

    /** Copy assignment: a no-op on self; otherwise releases the old pointer and AddRefs the new one. */
    method AssignCopy(other: ComPtr)
      requires other.ledger == ledger
      modifies this, ledger
      ensures other.ptr == old(other.ptr) && ptr == old(other.ptr)
      ensures ledger.counts == if other == this then old(ledger.counts)
                               else AddRef(Release(old(ledger.counts), old(ptr)), old(other.ptr))
    {
      if other != this {
        if ptr.Ref? {
          ledger.counts := Release(ledger.counts, ptr);
        }
        ptr := other.ptr;
        if ptr.Ref? {
          ledger.counts := AddRef(ledger.counts, ptr);
        }
      }
    }

    /** Move assignment: a no-op on self; otherwise releases the old pointer, takes `other`'s and nulls it. */
    method AssignMove(other: ComPtr)
      requires other.ledger == ledger
      modifies this, other, ledger
      ensures other == this ==> ptr == old(ptr) && ledger.counts == old(ledger.counts)
      ensures other != this ==> ptr == old(other.ptr) && other.ptr == Null
      ensures other != this ==> ledger.counts == Release(old(ledger.counts), old(ptr))
    {
      if other != this {
        if ptr.Ref? {
          ledger.counts := Release(ledger.counts, ptr);
        }
        ptr := other.ptr;
        other.ptr := Null;
      }
    }

    /**
      `as<Ty>()`: a new empty wrapper, filled by `QueryInterface` only when this
      wrapper is non-null. `answer` is what `QueryInterface` would write (null
      when the interface is not supported); it hands out an AddRef'd reference.
     */
    method As(answer: Ptr) returns (r: ComPtr)
      modifies ledger
      ensures fresh(r) && r.ledger == ledger && ptr == old(ptr)
      ensures ptr.Null? ==> r.ptr == Null && ledger.counts == old(ledger.counts)
      ensures ptr.Ref? ==> r.ptr == answer && ledger.counts == AddRef(old(ledger.counts), answer)
    {
      r := new ComPtr(ledger, Null);
      if ptr.Ref? {
        r.AddressOf();
        r.ReceiveFromCallee(answer);
      }
    }
  }
}
