/** A re-implementation of `Array.prototype.forEach`, and the demo that uses
    it to build one record per element by assigning at the end of a list. */
module ForEachDemo {

  /** One call of the callback: the element, its index and the array itself (`source`). */
  datatype Visit<T> = Visit(element: T, index: nat, source: array<T>)

  /** `forEach`: the callback calls, in the order they are made. The array is
      only read. */
  method ForEach<T>(a: array<T>) returns (visits: seq<Visit<T>>)
    ensures |visits| == a.Length
    ensures forall i :: 0 <= i < a.Length ==> visits[i] == Visit(a[i], i, a)
  {
    visits := [];
    var i := 0;
    while i < a.Length
      invariant 0 <= i <= a.Length
      invariant |visits| == i
      invariant forall k :: 0 <= k < i ==> visits[k] == Visit(a[k], k, a)
    {
      visits := visits + [Visit(a[i], i, a)];
      i := i + 1;
    }
  }

  /** Assigning at an index of a list: at its length the list grows by one. */
  function AssignAt<T>(s: seq<T>, i: nat, x: T): (r: seq<T>)
    requires i <= |s|
    ensures |r| == if i == |s| then |s| + 1 else |s|
    ensures r[i] == x
    ensures forall k :: 0 <= k < |s| && k != i ==> r[k] == s[k]
  {
    if i == |s| then s + [x] else s[i := x]
  }

  /** The demo's record for one car. */
  datatype CarRecord = CarRecord(car: string, index: nat, cars: array<string>)

  /** The demo: for each call of the callback, build the record and assign it
      at `data.length`. The result holds one record per car, in order. */
  method CollectRecords(cars: array<string>) returns (data: seq<CarRecord>)
    ensures |data| == cars.Length
    ensures forall i :: 0 <= i < cars.Length ==> data[i] == CarRecord(cars[i], i, cars)
  {
    var visits := ForEach(cars);
    data := [];
    var i := 0;
    while i < |visits|
      invariant 0 <= i <= |visits|
      invariant |data| == i
      invariant forall k :: 0 <= k < i ==> data[k] == CarRecord(cars[k], k, cars)
    {
      var v := visits[i];
      data := AssignAt(data, |data|, CarRecord(v.element, v.index, v.source));
      i := i + 1;
    }
  }
}
