/** Slices as JSON arrays; a nil slice is null. */
module Slices {
  import opened Wrappers
  import opened Json

  function ToItems<T>(enc: T -> Value, xs: seq<T>): Values {
    if xs == [] then NoItem else Item(enc(xs[0]), ToItems(enc, xs[1..]))
  }

  function FromItems<T>(dec: Value -> Option<T>, items: Values): Option<seq<T>> {
    if items.NoItem? then Some([])
    else
      var x :- dec(items.head);
      var rest :- FromItems(dec, items.tail);
      Some([x] + rest)
  }

  function Map<T>(f: T -> T, xs: seq<T>): (ys: seq<T>)
    ensures |ys| == |xs| && forall i :: 0 <= i < |xs| ==> ys[i] == f(xs[i])
  {
    if xs == [] then [] else [f(xs[0])] + Map(f, xs[1..])
  }

  function SliceJson<T>(enc: T -> Value, l: Slice<T>): Value {
    match l case Nil => Null case Items(xs) => Arr(ToItems(enc, xs))
  }

  // What a nil slice becomes when a document, or a member of one, is read into it.
  function SliceOf<T>(dec: Value -> Option<T>, v: Option<Value>): Option<Slice<T>> {
    match v
    case None => Some(Nil)
    case Some(Null) => Some(Nil)
    case Some(Arr(items)) =>
      var xs :- FromItems(dec, items);
      Some(Items(xs))
    case _ => None
  }

  function MarshalList<T>(enc: T -> Value, l: Slice<T>): string { Marshal(SliceJson(enc, l)) }

  function UnmarshalList<T>(dec: Value -> Option<T>, s: string): Option<Slice<T>> {
    var v :- Unmarshal(s);
    SliceOf(dec, Some(v))
  }

  predicate EachDecodes<T>(dec: Value -> Option<T>, items: Values) {
    items.NoItem? || (dec(items.head).Some? && EachDecodes(dec, items.tail))
  }

  lemma {:induction false} ItemsIff<T>(dec: Value -> Option<T>, items: Values)
    ensures FromItems(dec, items).Some? <==> EachDecodes(dec, items)
  {
    if items.Item? {
      ItemsIff(dec, items.tail);
    }
  }

  // Text parses as a list if and only if it is null or an array of which every
  // element parses.
  lemma ListIff<T>(dec: Value -> Option<T>, s: string)
    ensures UnmarshalList(dec, s).Some? <==>
              var v := Unmarshal(s);
              v.Some? && (v.value.Null? || (v.value.Arr? && EachDecodes(dec, v.value.items)))
  {
    var v := Unmarshal(s);
    if v.Some? && v.value.Arr? {
      ItemsIff(dec, v.value.items);
    }
  }

  function MapSlice<T>(f: T -> T, l: Slice<T>): Slice<T> {
    match l case Nil => Nil case Items(xs) => Items(Map(f, xs))
  }

  lemma {:induction false} ItemsTrip<T(!new)>(enc: T -> Value, dec: Value -> Option<T>, clean: T -> T, xs: seq<T>)
    requires forall x :: dec(CleanValue(enc(x))) == Some(clean(x))
    ensures FromItems(dec, CleanItems(ToItems(enc, xs))) == Some(Map(clean, xs))
  {
    if xs != [] {
      ItemsTrip(enc, dec, clean, xs[1..]);
    }
  }

  lemma SliceTrip<T(!new)>(enc: T -> Value, dec: Value -> Option<T>, clean: T -> T, l: Slice<T>)
    requires forall x :: dec(CleanValue(enc(x))) == Some(clean(x))
    ensures SliceOf(dec, Some(CleanValue(SliceJson(enc, l)))) == Some(MapSlice(clean, l))
  {
    if l.Items? {
      ItemsTrip(enc, dec, clean, l.items);
    }
  }

  lemma ListTrip<T(!new)>(enc: T -> Value, dec: Value -> Option<T>, clean: T -> T, l: Slice<T>)
    requires forall x :: dec(CleanValue(enc(x))) == Some(clean(x))
    ensures UnmarshalList(dec, MarshalList(enc, l)) == Some(MapSlice(clean, l))
  {
    UnmarshalMarshal(SliceJson(enc, l));
    SliceTrip(enc, dec, clean, l);
  }

  lemma MapFixed<T>(f: T -> T, l: Slice<T>)
    ensures MapSlice(f, l) == l <==> forall i :: 0 <= i < |l.Elems()| ==> f(l.Elems()[i]) == l.Elems()[i]
  {
    if l.Items? {
      assert Map(f, l.items) == l.items <==> forall i :: 0 <= i < |l.items| ==> f(l.items[i]) == l.items[i];
      assert l.Elems() == l.items;
    }
  }
}
