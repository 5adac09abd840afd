/**
 map[string]string in JSON: an object whose members are written in the order of
 their names, and read back one by one, a later name replacing an equal earlier
 one. A map is held as its pairs in that order.
 */
module Labels {
  import opened Wrappers
  import opened Utf8
  import opened Json
  import opened Members

  type Pair = (string, string)

  // Byte-wise order of names.
  predicate Less(a: string, b: string) {
    b != "" && (a == "" || a[0] < b[0] || (a[0] == b[0] && Less(a[1..], b[1..])))
  }

  predicate Sorted(ps: seq<Pair>) {
    forall i, j :: 0 <= i < j < |ps| ==> Less(ps[i].0, ps[j].0)
  }

  type Labels = ps: seq<Pair> | Sorted(ps)

  lemma {:induction false} LessTransitive(a: string, b: string, c: string)
    requires Less(a, b) && Less(b, c)
    ensures Less(a, c)
  {
    if a != "" && a[0] == b[0] == c[0] {
      LessTransitive(a[1..], b[1..], c[1..]);
    }
  }

  lemma {:induction false} LessTotal(a: string, b: string)
    ensures Less(a, b) || a == b || Less(b, a)
    ensures Less(a, b) ==> a != b && !Less(b, a)
  {
    if a != "" && b != "" && a[0] == b[0] {
      LessTotal(a[1..], b[1..]);
      assert a == [a[0]] + a[1..] && b == [b[0]] + b[1..];
    }
  }

  // m[key] = value
  function Set(ps: seq<Pair>, key: string, value: string): seq<Pair> {
    if ps == [] || Less(key, ps[0].0) then [(key, value)] + ps
    else if key == ps[0].0 then [(key, value)] + ps[1..]
    else [ps[0]] + Set(ps[1..], key, value)
  }

  // Every key of the result is the new one or an old one.
  lemma {:induction false} SetKeys(ps: seq<Pair>, key: string, value: string)
    ensures var r := Set(ps, key, value);
            forall p :: p in r ==> p == (key, value) || p in ps
  {
    if ps != [] && !Less(key, ps[0].0) && key != ps[0].0 {
      SetKeys(ps[1..], key, value);
    }
    assert ps != [] ==> forall p :: p in ps[1..] ==> p in ps;
  }

  lemma {:induction false} SetSorted(ps: seq<Pair>, key: string, value: string)
    requires Sorted(ps)
    ensures Sorted(Set(ps, key, value))
  {
    if ps != [] && Less(key, ps[0].0) {
      forall i | 0 <= i < |ps| ensures Less(key, ps[i].0) {
        if i > 0 { LessTransitive(key, ps[0].0, ps[i].0); }
      }
    } else if ps != [] && key != ps[0].0 {
      LessTotal(key, ps[0].0);
      SetSorted(ps[1..], key, value);
      SetKeys(ps[1..], key, value);
      assert forall p :: p in ps[1..] ==> Less(ps[0].0, p.0);
    }
  }

  // A key after all others goes to the end.
  lemma {:induction false} SetLast(ps: seq<Pair>, key: string, value: string)
    requires Sorted(ps + [(key, value)])
    ensures Set(ps, key, value) == ps + [(key, value)]
  {
    if ps != [] {
      var all := ps + [(key, value)];
      assert Less(all[0].0, all[|ps|].0);
      LessTotal(ps[0].0, key);
      assert all[1..] == ps[1..] + [(key, value)];
      SetLast(ps[1..], key, value);
    }
  }

  // ---- As an object ----

  function ToFields(ps: seq<Pair>): Fields {
    if ps == [] then NoField else Field(ps[0].0, Str(ps[0].1), ToFields(ps[1..]))
  }

  function FromFields(f: Fields, got: seq<Pair>): Option<seq<Pair>> {
    if f.NoField? then Some(got)
    else
      var v :- StringOf(Some(f.val));
      FromFields(f.rest, Set(got, f.name, v))
  }

  // What a trip through JSON makes of the pairs.
  function Resend(ps: seq<Pair>, got: seq<Pair>): seq<Pair> {
    if ps == [] then got else Resend(ps[1..], Set(got, Sanitize(ps[0].0), Sanitize(ps[0].1)))
  }

  lemma {:induction false} ResendSorted(ps: seq<Pair>, got: seq<Pair>)
    requires Sorted(got)
    ensures Sorted(Resend(ps, got))
  {
    if ps != [] {
      SetSorted(got, Sanitize(ps[0].0), Sanitize(ps[0].1));
      ResendSorted(ps[1..], Set(got, Sanitize(ps[0].0), Sanitize(ps[0].1)));
    }
  }

  lemma {:induction false} FromFieldsSorted(f: Fields, got: seq<Pair>)
    requires Sorted(got)
    ensures FromFields(f, got).Some? ==> Sorted(FromFields(f, got).value)
  {
    if f.Field? && StringOf(Some(f.val)).Some? {
      SetSorted(got, f.name, StringOf(Some(f.val)).value);
      FromFieldsSorted(f.rest, Set(got, f.name, StringOf(Some(f.val)).value));
    }
  }

  function LabelsJson(l: Option<Labels>): Value {
    match l case None => Null case Some(ps) => Obj(ToFields(ps))
  }

  function LabelsOf(v: Option<Value>): Option<Option<Labels>> {
    match v
    case None => Some(None)
    case Some(Null) => Some(None)
    case Some(Obj(f)) =>
      FromFieldsSorted(f, []);
      var ps :- FromFields(f, []);
      Some(Some(ps))
    case _ => None
  }

  function CleanLabels(l: Option<Labels>): Option<Labels> {
    match l
    case None => None
    case Some(ps) =>
      ResendSorted(ps, []);
      Some(Resend(ps, []))
  }

  lemma {:induction false} PairsTrip(ps: seq<Pair>, got: seq<Pair>)
    ensures FromFields(CleanFields(ToFields(ps)), got) == Some(Resend(ps, got))
  {
    if ps != [] {
      PairsTrip(ps[1..], Set(got, Sanitize(ps[0].0), Sanitize(ps[0].1)));
    }
  }

  lemma LabelsTrip(l: Option<Labels>)
    ensures LabelsOf(Some(CleanValue(LabelsJson(l)))) == Some(CleanLabels(l))
  {
    if l.Some? {
      PairsTrip(l.value, []);
    }
  }

  // ---- When nothing changes ----

  predicate ValidPairs(ps: seq<Pair>) {
    forall p :: p in ps ==> Valid(p.0) && Valid(p.1)
  }

  predicate ValidLabels(l: Option<Labels>) { l.Some? ==> ValidPairs(l.value) }

  lemma {:induction false} ResendSame(ps: seq<Pair>, got: seq<Pair>)
    requires Sorted(got + ps) && ValidPairs(ps)
    ensures Resend(ps, got) == got + ps
  {
    if ps == [] {
      assert got + ps == got;
    } else {
      SanitizeExactIff(ps[0].0);
      SanitizeExactIff(ps[0].1);
      var mid := got + [ps[0]];
      assert got + ps == mid + ps[1..];
      assert Sorted(mid) by {
        assert forall i :: 0 <= i < |mid| ==> mid[i] == (got + ps)[i];
      }
      SetLast(got, ps[0].0, ps[0].1);
      ResendSame(ps[1..], mid);
    }
  }

  lemma {:induction false} ResendValid(ps: seq<Pair>, got: seq<Pair>)
    requires ValidPairs(got)
    ensures ValidPairs(Resend(ps, got))
  {
    if ps != [] {
      var k, v := Sanitize(ps[0].0), Sanitize(ps[0].1);
      SanitizeIdempotent(ps[0].0);
      SanitizeIdempotent(ps[0].1);
      SanitizeExactIff(k);
      SanitizeExactIff(v);
      SetKeys(got, k, v);
      ResendValid(ps[1..], Set(got, k, v));
    }
  }

  lemma CleanLabelsExactIff(l: Option<Labels>)
    ensures CleanLabels(l) == l <==> ValidLabels(l)
  {
    if l.Some? {
      ResendValid(l.value, []);
      if ValidPairs(l.value) {
        assert [] + l.value == l.value;
        ResendSame(l.value, []);
      }
    }
  }
}
