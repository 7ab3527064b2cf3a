/** The NRCS (SOAP, hourly) reduction of `get_nrcs_data`: of each element's samples,
    the one with the latest `dateTime` wins. */
module Nrcs {
  import opened Wrappers

  /** One `getHourlyData` value: its timestamp and its possibly missing value. */
  datatype NrcsSample = NrcsSample(dateTime: int, value: Option<real>)

  /** The position of the first sample, in input order, whose `dateTime` is the greatest. */
  function LatestIndex(values: seq<NrcsSample>): (k: nat)
    requires |values| > 0
    ensures k < |values|
    ensures forall j | 0 <= j < |values| :: values[j].dateTime <= values[k].dateTime
    ensures forall j | 0 <= j < k :: values[j].dateTime < values[k].dateTime
  {
    if |values| == 1 then 0
    else
      var k := LatestIndex(values[..|values| - 1]);
      if values[|values| - 1].dateTime > values[k].dateTime then |values| - 1 else k
  }

  /** The two properties of `LatestIndex` pin the position down. */
  lemma LatestIndexUnique(values: seq<NrcsSample>, k: nat)
    requires k < |values|
    requires forall j | 0 <= j < |values| :: values[j].dateTime <= values[k].dateTime
    requires forall j | 0 <= j < k :: values[j].dateTime < values[k].dateTime
    ensures k == LatestIndex(values)
  {
    var m := LatestIndex(values);
    assert !(k < m) && !(m < k);
  }

  /** Inserts `x` into a list sorted by descending `dateTime`, after every element whose
      `dateTime` is at least `x`'s, so equal keys keep their input order. */
  function InsertDescending(x: NrcsSample, sorted: seq<NrcsSample>): (r: seq<NrcsSample>)
    ensures |r| == |sorted| + 1
    ensures multiset(r) == multiset(sorted) + multiset{x}
    ensures sorted != [] && sorted[0].dateTime >= x.dateTime ==> r[0] == sorted[0]
    ensures (sorted == [] || sorted[0].dateTime < x.dateTime) ==> r[0] == x
  {
    if sorted == [] then [x]
    else if sorted[0].dateTime >= x.dateTime then
      assert sorted == [sorted[0]] + sorted[1..];
      [sorted[0]] + InsertDescending(x, sorted[1..])
    else [x] + sorted
  }

  /** Each sample is at least as new as the next one. */
  ghost predicate Descending(s: seq<NrcsSample>) {
    forall i | 0 < i < |s| :: s[i - 1].dateTime >= s[i].dateTime
  }

  /** A descending list is ordered newest first across any two positions. */
  lemma {:induction false} DescendingOrdered(s: seq<NrcsSample>)
    requires Descending(s)
    ensures forall i, j | 0 <= i < j < |s| :: s[i].dateTime >= s[j].dateTime
  {
    if |s| > 1 {
      var rest := s[1..];
      assert forall i | 0 < i < |rest| :: rest[i - 1] == s[i] && rest[i] == s[i + 1];
      DescendingOrdered(rest);
      forall i, j | 0 <= i < j < |s|
        ensures s[i].dateTime >= s[j].dateTime
      {
        assert rest[j - 1] == s[j];
        if i > 0 {
          assert rest[i - 1] == s[i];
        } else if j > 1 {
          assert rest[0] == s[1];
        }
      }
    }
  }

  /** Inserting into a descending list keeps it descending. */
  lemma {:induction false} InsertKeepsDescending(x: NrcsSample, sorted: seq<NrcsSample>)
    requires Descending(sorted)
    ensures Descending(InsertDescending(x, sorted))
  {
    if sorted != [] && sorted[0].dateTime >= x.dateTime {
      var tail := sorted[1..];
      assert forall i | 0 < i < |tail| :: tail[i - 1] == sorted[i] && tail[i] == sorted[i + 1];
      InsertKeepsDescending(x, tail);
      var rest := InsertDescending(x, tail);
      assert |tail| > 0 ==> tail[0] == sorted[1];
      assert forall i | 0 < i <= |rest| :: ([sorted[0]] + rest)[i] == rest[i - 1];
    }
  }

  /** Python's `sorted(values, key=dateTime, reverse=True)`: a stable sort, newest first. */
  function SortDescending(values: seq<NrcsSample>): (r: seq<NrcsSample>)
    ensures |r| == |values|
    ensures multiset(r) == multiset(values)
    ensures Descending(r)
  {
    if values == [] then []
    else
      assert values == values[..|values| - 1] + [values[|values| - 1]];
      InsertKeepsDescending(values[|values| - 1], SortDescending(values[..|values| - 1]));
      InsertDescending(values[|values| - 1], SortDescending(values[..|values| - 1]))
  }

  /** The head of the stable newest-first sort is the first sample with the latest
      `dateTime`: on a tie the earliest such sample in input order wins. */
  lemma {:induction false} SortedHeadIsLatest(values: seq<NrcsSample>)
    requires |values| > 0
    ensures SortDescending(values)[0] == values[LatestIndex(values)]
  {
    if |values| > 1 {
      var init := values[..|values| - 1];
      SortedHeadIsLatest(init);
      assert init[LatestIndex(init)] == values[LatestIndex(init)];
    }
  }

  /** One element's stored value: `None` for an empty list, otherwise the value of the
      latest sample, which may itself be `None`. */
  function ReduceNrcs(values: seq<NrcsSample>): Option<real> {
    if |values| == 0 then None else values[LatestIndex(values)].value
  }

  /** What `remote_data` holds after the requests for `desired` were answered by
      `responses`, one after the other. */
  function Stored(desired: seq<string>, responses: seq<seq<NrcsSample>>): map<string, Option<real>>
    requires |responses| == |desired|
  {
    if desired == [] then map[]
    else
      var n := |desired| - 1;
      Stored(desired[..n], responses[..n])[desired[n] := ReduceNrcs(responses[n])]
  }

  /** Exactly the requested codes are stored. */
  lemma {:induction false} StoredKeys(desired: seq<string>, responses: seq<seq<NrcsSample>>)
    requires |responses| == |desired|
    ensures Stored(desired, responses).Keys == set code | code in desired
  {
    if desired != [] {
      var n := |desired| - 1;
      StoredKeys(desired[..n], responses[..n]);
      assert desired == desired[..n] + [desired[n]];
    }
  }

  /** The request at position `j` is the last one for its code. */
  ghost predicate LastRequest(desired: seq<string>, j: int) {
    0 <= j < |desired| && forall k | j < k < |desired| :: desired[k] != desired[j]
  }

  /** Every requested code is stored, with the reduction of the answer to its last request. */
  lemma {:induction false} StoredLastRequestWins(desired: seq<string>, responses: seq<seq<NrcsSample>>)
    requires |responses| == |desired|
    ensures Stored(desired, responses).Keys == set code | code in desired
    ensures forall j | 0 <= j < |desired| && LastRequest(desired, j) ::
      Stored(desired, responses)[desired[j]] == ReduceNrcs(responses[j])
  {
    StoredKeys(desired, responses);
    if desired != [] {
      var n := |desired| - 1;
      StoredLastRequestWins(desired[..n], responses[..n]);
      forall j | 0 <= j < |desired| && LastRequest(desired, j)
        ensures Stored(desired, responses)[desired[j]] == ReduceNrcs(responses[j])
      {
        var before := Stored(desired[..n], responses[..n]);
        if j < n {
          assert desired[..n][j] in desired[..n];
          EarlierRequest(desired, responses, j);
          assert before[desired[..n][j]] == ReduceNrcs(responses[..n][j]);
        } else {
          assert Stored(desired, responses) == before[desired[n] := ReduceNrcs(responses[n])];
        }
      }
    }
  }

  /** A code not requested again after position `j` keeps the value stored for `j`
      when the last request is answered. */
  lemma EarlierRequest(desired: seq<string>, responses: seq<seq<NrcsSample>>, j: nat)
    requires |responses| == |desired| && j + 1 < |desired| && LastRequest(desired, j)
    requires var n := |desired| - 1;
      desired[..n][j] in Stored(desired[..n], responses[..n])
    ensures var n := |desired| - 1;
      Stored(desired, responses)[desired[j]] == Stored(desired[..n], responses[..n])[desired[..n][j]] &&
      LastRequest(desired[..n], j) && responses[..n][j] == responses[j]
  {
    var n := |desired| - 1;
    assert desired[n] != desired[j];
  }

  /** Answering one more request updates its code only. */
  lemma StoredStep(desired: seq<string>, responses: seq<seq<NrcsSample>>, i: nat)
    requires |responses| == |desired| && i < |desired|
    ensures Stored(desired[..i + 1], responses[..i + 1]) ==
            Stored(desired[..i], responses[..i])[desired[i] := ReduceNrcs(responses[i])]
  {
    assert desired[..i + 1][..i] == desired[..i];
    assert responses[..i + 1][..i] == responses[..i];
  }

  /** Python's `get_nrcs_data` without the SOAP client: `responses[j]` is the list of
      values returned for the request for `desiredData[j]`. */
  method GetNrcsData(desiredData: seq<string>, responses: seq<seq<NrcsSample>>)
    returns (remoteData: map<string, Option<real>>)
    requires |responses| == |desiredData|
    ensures remoteData == Stored(desiredData, responses)
  {
    remoteData := map[];
    var i := 0;
    while i < |desiredData|
      invariant 0 <= i <= |desiredData|
      invariant remoteData == Stored(desiredData[..i], responses[..i])
    {
      var elementCd := desiredData[i];
      var values := responses[i];
      if |values| > 0 {
        var ordered := SortDescending(values);
        SortedHeadIsLatest(values);
        assert ordered[0].value == ReduceNrcs(values);
        remoteData := remoteData[elementCd := ordered[0].value];
      } else {
        remoteData := remoteData[elementCd := None];
      }
      StoredStep(desiredData, responses, i);
      i := i + 1;
    }
    assert desiredData[..i] == desiredData && responses[..i] == responses;
  }
}
