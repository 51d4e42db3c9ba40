/**
  The menu tree and its pre-order iterator of CompositePattern.java.

  A menu tree is a value: a `MenuItem` leaf or a `SubMenu` with an ordered list
  of children. The Java `Menu` object, whose child list `add` and `remove`
  mutate and which caches the iterator it hands out, is the class `Menu`.
  `MenuComponentIterator` keeps a stack of child iterators; each is modelled as
  a `Frame`, a list of components with a cursor. The iterator of a `MenuItem`
  is the empty frame, and the iterator of a sub-menu the frame over its
  children, which yields the same components as that sub-menu's own (fresh)
  `MenuComponentIterator`: each child followed by all of the child's
  descendants.
*/
module CompositePattern {
  import opened Wrappers

  /** Java's UnsupportedOperationException, thrown by every `MenuComponent` default. */
  datatype Unsupported = UnsupportedOperation

  datatype MenuComponent =
    | MenuItem(name: string, price: real)
    | SubMenu(name: string, components: seq<MenuComponent>)

  /** `add`: a menu appends the component at the end of its children; a menu item refuses. */
  function AddTo(c: MenuComponent, child: MenuComponent): (r: Result<MenuComponent, Unsupported>)
    ensures r.Failure? <==> c.MenuItem?
    ensures r.Success? ==>
      && r.value.SubMenu? && r.value.name == c.name
      && |r.value.components| == |c.components| + 1
      && r.value.components[..|c.components|] == c.components
      && r.value.components[|c.components|] == child
  {
    match c
    case MenuItem(_, _) => Failure(UnsupportedOperation)
    case SubMenu(name, components) => Success(SubMenu(name, components + [child]))
  }

  /** `ArrayList.remove(Object)`: drops the first occurrence of `x`. */
  function RemoveFirst<T(==)>(s: seq<T>, x: T): (r: seq<T>)
    ensures multiset(r) == multiset(s) - multiset{x}
  {
    if s == [] then []
    else if s[0] == x then
      assert s == [s[0]] + s[1..];
      s[1..]
    else
      assert s == [s[0]] + s[1..];
      [s[0]] + RemoveFirst(s[1..], x)
  }

  /** The position of the first occurrence of `x` in `s`. */
  function FirstIndex<T(==)>(s: seq<T>, x: T): (i: nat)
    requires x in s
    ensures i < |s| && s[i] == x && x !in s[..i]
  {
    if s[0] == x then 0
    else
      assert s == [s[0]] + s[1..];
      var j := FirstIndex(s[1..], x);
      assert s[..j + 1] == [s[0]] + s[1..][..j];
      j + 1
  }

  /** Removing an absent element leaves the list alone. */
  lemma {:induction false} RemoveFirstAbsent<T>(s: seq<T>, x: T)
    ensures x !in s ==> RemoveFirst(s, x) == s
  {
    if s != [] && x !in s {
      assert s == [s[0]] + s[1..];
      RemoveFirstAbsent(s[1..], x);
    }
  }

  /** Removal cuts out the first occurrence and keeps the order of the rest. */
  lemma {:induction false} RemoveFirstCutsFirstOccurrence<T>(s: seq<T>, x: T)
    requires x in s
    ensures RemoveFirst(s, x) == s[..FirstIndex(s, x)] + s[FirstIndex(s, x) + 1..]
  {
    if s[0] == x {
      assert s[..0] == [];
    } else {
      var tail := s[1..];
      assert s == [s[0]] + tail;
      RemoveFirstCutsFirstOccurrence(tail, x);
      var i := FirstIndex(tail, x);
      assert FirstIndex(s, x) == i + 1;
      assert s[..i + 1] == [s[0]] + tail[..i];
      assert s[i + 2..] == tail[i + 1..];
      assert RemoveFirst(s, x) == [s[0]] + (tail[..i] + tail[i + 1..]);
    }
  }

  /** `remove`: a menu drops the first occurrence of the component; a menu item refuses. */
  function RemoveFrom(c: MenuComponent, child: MenuComponent): (r: Result<MenuComponent, Unsupported>)
    ensures r.Failure? <==> c.MenuItem?
    ensures r.Success? ==> (r.value.SubMenu? && r.value.name == c.name &&
      multiset(r.value.components) == multiset(c.components) - multiset{child})
    ensures r.Success? && child !in c.components ==> r.value == c
  {
    match c
    case MenuItem(_, _) => Failure(UnsupportedOperation)
    case SubMenu(name, components) =>
      RemoveFirstAbsent(components, child);
      Success(SubMenu(name, RemoveFirst(components, child)))
  }

  /** `getPrice`: a menu item answers its price; a menu keeps the throwing default. */
  function PriceOf(c: MenuComponent): (r: Result<real, Unsupported>)
    ensures r.Success? <==> c.MenuItem?
    ensures r.Success? ==> r.value == c.price
  {
    match c
    case MenuItem(_, price) => Success(price)
    case SubMenu(_, _) => Failure(UnsupportedOperation)
  }

  /** Every component of `cs` in order, each immediately followed by its own descendants. */
  function Flatten(cs: seq<MenuComponent>): seq<MenuComponent>
    decreases cs
  {
    if cs == [] then []
    else
      assert cs[0] in cs;
      [cs[0]] + (if cs[0].SubMenu? then Flatten(cs[0].components) else []) + Flatten(cs[1..])
  }

  /** All components below `c`, in pre-order, `c` itself excluded. */
  function Descendants(c: MenuComponent): seq<MenuComponent>
  {
    if c.SubMenu? then Flatten(c.components) else []
  }

  /** `x` hangs somewhere below `c`. */
  ghost predicate IsDescendant(x: MenuComponent, c: MenuComponent)
    decreases c
  {
    c.SubMenu? &&
    exists k :: 0 <= k < |c.components| && (x == c.components[k] || IsDescendant(x, c.components[k]))
  }

  /** `x` is one of `cs` or below one of them. */
  ghost predicate InForest(x: MenuComponent, cs: seq<MenuComponent>)
  {
    exists k :: 0 <= k < |cs| && (x == cs[k] || IsDescendant(x, cs[k]))
  }

  /** The pre-order listing holds exactly the components of the forest and their descendants. */
  lemma {:induction false} FlattenMembers(cs: seq<MenuComponent>, x: MenuComponent)
    ensures x in Flatten(cs) <==> InForest(x, cs)
    decreases cs
  {
    if cs != [] {
      var head, tail := cs[0], cs[1..];
      assert head in cs;
      FlattenMembers(tail, x);
      if head.SubMenu? {
        FlattenMembers(head.components, x);
        assert IsDescendant(x, head) <==> InForest(x, head.components);
      }
      if InForest(x, cs) {
        var k :| 0 <= k < |cs| && (x == cs[k] || IsDescendant(x, cs[k]));
        if k > 0 {
          assert tail[k - 1] == cs[k];
        }
      }
      if InForest(x, tail) {
        var k :| 0 <= k < |tail| && (x == tail[k] || IsDescendant(x, tail[k]));
        assert cs[k + 1] == tail[k];
      }
    }
  }

  /** The traversal below `root` yields every descendant of `root` and nothing else. */
  lemma DescendantsAreBelow(root: MenuComponent, x: MenuComponent)
    ensures x in Descendants(root) <==> IsDescendant(x, root)
  {
    if root.SubMenu? {
      FlattenMembers(root.components, x);
    }
  }

  /** A child iterator: a list of components and a cursor into it. */
  datatype Frame = Frame(items: seq<MenuComponent>, index: nat)

  /** `hasNext` of a child iterator. */
  predicate Live(f: Frame)
  {
    f.index < |f.items|
  }

  /** What a child iterator still yields, descendants included. */
  function Rest(f: Frame): seq<MenuComponent>
  {
    if Live(f) then Flatten(f.items[f.index..]) else []
  }

  /** `createIterator` of a child: empty for a menu item, over its children for a menu. */
  function ChildIterator(c: MenuComponent): (f: Frame)
    ensures c.MenuItem? ==> !Live(f)
    ensures Rest(f) == Descendants(c)
  {
    if c.SubMenu? then
      assert c.components[0..] == c.components;
      Frame(c.components, 0)
    else Frame([], 0)
  }

  /** What a stack of child iterators still yields: the top frame first, then the ones below. */
  function Pending(stack: seq<Frame>): seq<MenuComponent>
    decreases |stack|
  {
    if stack == [] then [] else Rest(stack[|stack| - 1]) + Pending(stack[..|stack| - 1])
  }

  /** A stack holding one frame yields what that frame yields. */
  lemma PendingOfOne(f: Frame)
    ensures Pending([f]) == Rest(f)
  {
    assert [f][..0] == [];
  }

  /** Taking one component from a live frame leaves its descendants and then the frame's rest. */
  lemma RestAfterNext(f: Frame)
    requires Live(f)
    ensures Rest(f) == [f.items[f.index]] + Descendants(f.items[f.index]) + Rest(Frame(f.items, f.index + 1))
  {
    var tail := f.items[f.index..];
    assert tail[0] == f.items[f.index];
    assert tail[1..] == f.items[f.index + 1..];
    assert Flatten(tail) == [tail[0]] + Descendants(tail[0]) + Flatten(tail[1..]);
    if f.index + 1 == |f.items| {
      assert tail[1..] == [];
      assert Flatten(tail[1..]) == [];
    }
  }

  /** Pushing a frame puts what it yields in front of what the stack yielded. */
  lemma PendingPush(stack: seq<Frame>, f: Frame)
    ensures Pending(stack + [f]) == Rest(f) + Pending(stack)
  {
    assert (stack + [f])[..|stack|] == stack;
  }

  /** `next` on a stack whose top frame is live: the first pending component is consumed. */
  lemma PendingAfterNext(below: seq<Frame>, top: Frame)
    requires Live(top)
    ensures Pending(below + [Frame(top.items, top.index + 1)] + [ChildIterator(top.items[top.index])])
         == Pending(below + [top])[1..]
  {
    var c := top.items[top.index];
    var advanced := Frame(top.items, top.index + 1);
    RestAfterNext(top);
    PendingPush(below, top);
    PendingPush(below, advanced);
    PendingPush(below + [advanced], ChildIterator(c));
    Regroup(c, Descendants(c), Rest(advanced), Pending(below));
  }

  /** Re-bracketing of a concatenation that starts with one element. */
  lemma Regroup<T>(c: T, x: seq<T>, y: seq<T>, z: seq<T>)
    ensures [c] + x + y + z == [c] + (x + (y + z))
    ensures ([c] + (x + (y + z)))[1..] == x + (y + z)
  {
  }

  /** `MenuComponentIterator`: a stack of child iterators, the top one last. */
  class MenuComponentIterator {
    var stack: seq<Frame>

    constructor (bottom: Frame)
      ensures stack == [bottom]
    {
      stack := [bottom];
    }

    /** The components this iterator has still to yield, in order. */
    ghost function Remaining(): seq<MenuComponent>
      reads this
    {
      Pending(stack)
    }

    /**
      `hasNext`: pops exhausted iterators off the top until a live one shows or
      the stack is empty; answers whether one is left.
    */
    method HasNext() returns (b: bool)
      modifies this
      ensures Remaining() == old(Remaining())
      ensures b <==> stack != []
      ensures b <==> Remaining() != []
      ensures b ==> Live(stack[|stack| - 1])
      ensures |stack| <= |old(stack)| && stack == old(stack)[..|stack|]
      ensures forall k :: |stack| <= k < |old(stack)| ==> !Live(old(stack)[k])
      decreases |stack|
    {
      if stack == [] {
        b := false;
      } else {
        var top := stack[|stack| - 1];
        if !Live(top) {
          stack := stack[..|stack| - 1];
          b := HasNext();
        } else {
          b := true;
        }
      }
    }

    /**
      `next`: null when nothing is left; otherwise the next child of the top
      live iterator, whose own iterator is pushed on top.
    */
    method Next() returns (r: Option<MenuComponent>)
      modifies this
      ensures old(Remaining()) == [] ==> r == None && Remaining() == []
      ensures old(Remaining()) != [] ==> r == Some(old(Remaining())[0]) && Remaining() == old(Remaining())[1..]
    {
      var more := HasNext();
      if more {
        var below := stack[..|stack| - 1];
        var top := stack[|stack| - 1];
        var component := top.items[top.index];
        var advanced := Frame(top.items, top.index + 1);
        assert stack == below + [top];
        PendingAfterNext(below, top);
        stack := below + [advanced] + [ChildIterator(component)];
        r := Some(component);
      } else {
        r := None;
      }
    }
  }

  /** Moving the front element of the right part to the end of the left part. */
  lemma ShiftFront<T>(left: seq<T>, c: T, right: seq<T>)
    ensures left + ([c] + right) == (left + [c]) + right
  {
  }

  /** The client loop: `while (hasNext()) next()`, collecting what `next` returns. */
  method Drain(it: MenuComponentIterator) returns (visited: seq<MenuComponent>)
    modifies it
    ensures visited == old(it.Remaining()) && it.Remaining() == []
  {
    visited := [];
    var more := it.HasNext();
    while more
      invariant visited + it.Remaining() == old(it.Remaining())
      invariant more <==> it.Remaining() != []
      decreases |it.Remaining()|
    {
      ghost var before := it.Remaining();
      var c := it.Next();
      assert before == [c.value] + it.Remaining();
      ShiftFront(visited, c.value, it.Remaining());
      visited := visited + [c.value];
      more := it.HasNext();
    }
  }

  /** Iterating a fresh iterator over `root` yields the descendants of `root` in pre-order. */
  method Traverse(root: MenuComponent) returns (visited: seq<MenuComponent>)
    ensures visited == Descendants(root)
    ensures forall x :: x in visited <==> IsDescendant(x, root)
  {
    var it := new MenuComponentIterator(ChildIterator(root));
    PendingOfOne(ChildIterator(root));
    assert it.Remaining() == Descendants(root);
    visited := Drain(it);
    forall x
      ensures x in visited <==> IsDescendant(x, root)
    {
      DescendantsAreBelow(root, x);
    }
  }

  /** `Menu`: a named, mutable list of children and a cached iterator. */
  class Menu {
    const name: string
    var menuComponents: seq<MenuComponent>
    var cached: MenuComponentIterator?

    constructor (name: string)
      ensures this.name == name && menuComponents == [] && cached == null
    {
      this.name := name;
      menuComponents := [];
      cached := null;
    }

    /** This menu seen as a tree value. */
    function AsComponent(): MenuComponent
      reads this
    {
      SubMenu(name, menuComponents)
    }

    method Add(menuComponent: MenuComponent)
      modifies this`menuComponents
      ensures AddTo(old(AsComponent()), menuComponent) == Success(AsComponent())
    {
      menuComponents := menuComponents + [menuComponent];
    }

    method Remove(menuComponent: MenuComponent)
      modifies this`menuComponents
      ensures RemoveFrom(old(AsComponent()), menuComponent) == Success(AsComponent())
    {
      menuComponents := RemoveFirst(menuComponents, menuComponent);
    }

    /** `createIterator`: built on the first call over the children, the same object afterwards. */
    method CreateIterator() returns (it: MenuComponentIterator)
      modifies this`cached
      ensures old(cached) != null ==> it == old(cached) && cached == it
      ensures old(cached) == null ==> fresh(it) && cached == it && it.stack == [ChildIterator(AsComponent())]
      ensures old(cached) == null ==> it.Remaining() == Flatten(menuComponents)
    {
      if cached == null {
        cached := new MenuComponentIterator(ChildIterator(AsComponent()));
        PendingOfOne(ChildIterator(AsComponent()));
      }
      it := cached;
    }
  }

  /** The names of the given components, in order. */
  function Names(cs: seq<MenuComponent>): (names: seq<string>)
    ensures |names| == |cs|
    ensures forall i :: 0 <= i < |cs| ==> names[i] == cs[i].name
  {
    seq(|cs|, i requires 0 <= i < |cs| => cs[i].name)
  }

  /** Flattening a forest whose first tree is `c`. */
  lemma FlattenCons(c: MenuComponent, rest: seq<MenuComponent>)
    ensures Flatten([c] + rest) == [c] + Descendants(c) + Flatten(rest)
  {
    assert ([c] + rest)[1..] == rest;
  }

  /** The pre-order listing of the demo's main menu: three items, then the dessert menu and its two items. */
  lemma DemoListing(a: MenuComponent, b: MenuComponent, c: MenuComponent, d: MenuComponent)
    requires a.MenuItem? && b.MenuItem? && c.MenuItem?
    requires d.SubMenu? && |d.components| == 2 && d.components[0].MenuItem? && d.components[1].MenuItem?
    ensures Flatten([a, b, c, d]) == [a, b, c, d, d.components[0], d.components[1]]
  {
    var s, p := d.components[0], d.components[1];
    FlattenCons(p, []);
    assert [p] + [] == [p];
    FlattenCons(s, [p]);
    assert d.components == [s] + [p];
    FlattenCons(d, []);
    assert [d] + [] == [d];
    FlattenCons(c, [d]);
    FlattenCons(b, [c, d]);
    assert [b] + [c, d] == [b, c, d];
    FlattenCons(a, [b, c, d]);
    assert [a] + [b, c, d] == [a, b, c, d];
  }

  /** `CompositePattern.main`: the main menu lists its items and the dessert menu in pre-order. */
  method Demo() returns (names: seq<string>)
    ensures names == ["Pizza", "Pasta", "Beef Roast", "Desert Menu", "Supangle", "Puding"]
  {
    var mainMenu := new Menu("Main Menu");
    var pizza := MenuItem("Pizza", 13.99);
    var pasta := MenuItem("Pasta", 7.99);
    var beefRoast := MenuItem("Beef Roast", 19.99);
    mainMenu.Add(pizza);
    mainMenu.Add(pasta);
    mainMenu.Add(beefRoast);

    var desertMenu := new Menu("Desert Menu");
    var supangle := MenuItem("Supangle", 4.99);
    var puding := MenuItem("Puding", 5.99);
    desertMenu.Add(supangle);
    desertMenu.Add(puding);
    var desert := desertMenu.AsComponent();
    mainMenu.Add(desert);

    assert desert.components == [supangle, puding];
    assert mainMenu.menuComponents == [pizza, pasta, beefRoast, desert];
    var it := mainMenu.CreateIterator();
    var visited := Drain(it);
    DemoListing(pizza, pasta, beefRoast, desert);
    assert visited == [pizza, pasta, beefRoast, desert, supangle, puding];
    names := Names(visited);
  }
}
