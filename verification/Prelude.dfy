/** Small vocabulary shared by every component: optional values and the two
    string-slice helpers of internal/controller/utils. */
module Prelude {

  datatype Option<+T> = None | Some(value: T)

  /** utils.RemoveString: the slice without any occurrence of `str`, in order. */
  function RemoveString(slice: seq<string>, str: string): (r: seq<string>)
    ensures str !in r
    ensures forall x :: x != str ==> (x in r <==> x in slice)
  {
    if slice == [] then []
    else
      var rest := RemoveString(slice[1..], str);
      if slice[0] == str then rest else [slice[0]] + rest
  }

  /** A slice holding nothing but `str` is emptied by RemoveString. */
  lemma {:induction false} RemoveOnly(slice: seq<string>, str: string)
    requires forall x :: x in slice ==> x == str
    ensures RemoveString(slice, str) == []
  {
    if slice != [] {
      assert slice[0] in slice && forall x :: x in slice[1..] ==> x in slice;
      RemoveOnly(slice[1..], str);
    }
  }
}
