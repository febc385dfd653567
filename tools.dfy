/** The search helper of src/tools.c. */
module Tools {

  /** `arr[lo..hi]` (both ends included) is sorted ascending. */
  ghost predicate SortedBetween(arr: seq<int>, lo: int, hi: int)
    requires lo <= hi ==> 0 <= lo && hi < |arr|
  {
    forall i, j :: lo <= i < j <= hi ==> arr[i] <= arr[j]
  }

  /** `key` occurs somewhere in `arr[lo..hi]` (both ends included). */
  ghost predicate OccursBetween(arr: seq<int>, lo: int, hi: int, key: int)
    requires lo <= hi ==> 0 <= lo && hi < |arr|
  {
    exists i :: lo <= i <= hi && arr[i] == key
  }

  /** binarySearch(arr, left, right, key): recursive bisection of the closed range
      [left, right]. The C code reads only inside that range, so the range has to lie
      inside the array whenever it is non-empty. */
  function BinarySearch(arr: seq<int>, left: int, right: int, key: int): (r: int)
    requires left <= right ==> 0 <= left && right < |arr|
    ensures r == -1 || (left <= r <= right && arr[r] == key)
    ensures right < left ==> r == -1
    ensures !OccursBetween(arr, left, right, key) ==> r == -1
    ensures SortedBetween(arr, left, right) && OccursBetween(arr, left, right, key) ==> r != -1
    decreases right - left
  {
    if right >= left then
      var mid := left + (right - left) / 2;
      if arr[mid] == key then mid
      else if arr[mid] > key then BinarySearch(arr, left, mid - 1, key)
      else BinarySearch(arr, mid + 1, right, key)
    else
      -1
  }
}
