/**
 * The `GET /api/images` handler (`src/app/api/images/route.ts`): lists the
 * calendar images of the public `calendario` directory, keeps those with an
 * image extension, orders them by the number their digits spell and turns
 * each into a public URL.
 */
module ImagesRoute {
  import opened Text

  const PublicPrefix := "/calendario/"
  const ListingFailed := "Failed to list images"
  const ServerErrorStatus: nat := 500

  /** What the file system says about the directory: absent, unreadable, or its entry names. */
  datatype Directory = Missing | Unreadable | Entries(names: seq<string>)

  /** The JSON body and status of the response. */
  datatype Response = Images(images: seq<string>) | Failure(error: string, status: nat)

  // ---------------------------------------------------------------- filter

  /** The extension test, case-insensitive, anchored at the end of the name. */
  predicate IsCalendarImage(name: string) {
    var n := ToLower(name);
    EndsWith(n, ".jpg") || EndsWith(n, ".jpeg") || EndsWith(n, ".png") || EndsWith(n, ".webp")
  }

  /** The names that pass the extension test, in their listing order. */
  function FilterImages(names: seq<string>): (r: seq<string>)
    ensures |r| <= |names|
    ensures forall k :: 0 <= k < |r| ==> IsCalendarImage(r[k])
    ensures forall n :: multiset(r)[n] == if IsCalendarImage(n) then multiset(names)[n] else 0
  {
    if names == [] then []
    else
      var rest := FilterImages(names[1..]);
      assert names == [names[0]] + names[1..];
      if IsCalendarImage(names[0]) then [names[0]] + rest else rest
  }

  /** Filtering keeps listing order: the images of `a + b` are those of `a`, then those of `b`. */
  lemma {:induction false} FilterImagesAppend(a: seq<string>, b: seq<string>)
    ensures FilterImages(a + b) == FilterImages(a) + FilterImages(b)
    decreases |a|
  {
    if a == [] {
      assert a + b == b;
    } else {
      assert (a + b)[1..] == a[1..] + b;
      FilterImagesAppend(a[1..], b);
    }
  }

  /** Upper-case extensions pass the test too. */
  lemma UpperCaseExtensionAccepted()
    ensures IsCalendarImage("3.JPG")
    ensures !IsCalendarImage("notas.txt")
  {
    assert ToLower("3.JPG")[1..] == ".jpg";
    var t := ToLower("notas.txt");
    assert t[|t| - 4..] == ".txt";
    assert t[|t| - 5..] == "s.txt";
  }

  // ---------------------------------------------------------------- order

  /** `parseInt(name.replace(/\D/g, '')) || 0`: the number the name's digits spell, 0 when it has none. */
  function SortKey(name: string): nat {
    ParseDecimal(KeepDigits(name))
  }

  ghost predicate SortedBy(key: string -> nat, s: seq<string>) {
    forall i, j :: 0 <= i < j < |s| ==> key(s[i]) <= key(s[j])
  }

  ghost predicate AllKeysAtLeast(key: string -> nat, s: seq<string>, m: nat) {
    forall i :: 0 <= i < |s| ==> m <= key(s[i])
  }

  /** The names of `s` whose key is `k`, in order. */
  function WithKey(key: string -> nat, s: seq<string>, k: nat): (r: seq<string>)
    ensures |r| <= |s|
    ensures forall i :: 0 <= i < |r| ==> key(r[i]) == k
  {
    if s == [] then [] else (if key(s[0]) == k then [s[0]] else []) + WithKey(key, s[1..], k)
  }

  /** `x` placed before the first name whose key is at least its own. */
  function Insert(key: string -> nat, x: string, s: seq<string>): (r: seq<string>)
    ensures multiset(r) == multiset(s) + multiset{x}
  {
    if s == [] then [x]
    else if key(x) <= key(s[0]) then [x] + s
    else
      assert s == [s[0]] + s[1..];
      [s[0]] + Insert(key, x, s[1..])
  }

  lemma {:induction false} InsertKeepsBound(key: string -> nat, x: string, s: seq<string>, m: nat)
    requires AllKeysAtLeast(key, s, m) && m <= key(x)
    ensures AllKeysAtLeast(key, Insert(key, x, s), m)
    decreases |s|
  {
    if s != [] && key(x) > key(s[0]) {
      InsertKeepsBound(key, x, s[1..], m);
    }
  }

  /** Inserting into an ordered list keeps it ordered. */
  lemma {:induction false} InsertKeepsOrder(key: string -> nat, x: string, s: seq<string>)
    requires SortedBy(key, s)
    ensures SortedBy(key, Insert(key, x, s))
    decreases |s|
  {
    if s != [] && key(x) > key(s[0]) {
      InsertKeepsOrder(key, x, s[1..]);
      InsertKeepsBound(key, x, s[1..], key(s[0]));
    }
  }

  /**
   * The comparator `key(a) - key(b)` under the stable `Array.prototype.sort`:
   * names in ascending key order, equal keys in their listing order.
   */
  function SortBy(key: string -> nat, s: seq<string>): (r: seq<string>)
    ensures SortedBy(key, r)
    ensures multiset(r) == multiset(s)
  {
    if s == [] then []
    else
      assert s == [s[0]] + s[1..];
      var rest := SortBy(key, s[1..]);
      InsertKeepsOrder(key, s[0], rest);
      Insert(key, s[0], rest)
  }

  lemma {:induction false} WithKeyAppend(key: string -> nat, a: seq<string>, b: seq<string>, k: nat)
    ensures WithKey(key, a + b, k) == WithKey(key, a, k) + WithKey(key, b, k)
    decreases |a|
  {
    if a == [] {
      assert a + b == b;
    } else {
      assert (a + b)[1..] == a[1..] + b;
      WithKeyAppend(key, a[1..], b, k);
    }
  }

  lemma {:induction false} InsertWithKey(key: string -> nat, x: string, s: seq<string>, k: nat)
    ensures WithKey(key, Insert(key, x, s), k) == (if key(x) == k then [x] else []) + WithKey(key, s, k)
    decreases |s|
  {
    if s == [] {
      WithKeySingle(key, x, k);
      assert [x] + [] == [x];
    } else if key(x) <= key(s[0]) {
      assert Insert(key, x, s) == [x] + s;
      WithKeyAppend(key, [x], s, k);
      WithKeySingle(key, x, k);
    } else {
      var rest := s[1..];
      assert Insert(key, x, s) == [s[0]] + Insert(key, x, rest);
      assert s == [s[0]] + rest;
      InsertWithKey(key, x, rest, k);
      InsertBehindWithKey(key, x, s[0], rest, Insert(key, x, rest), k);
    }
  }

  /** Inserting behind a name with a smaller key cannot reorder names of one key. */
  lemma InsertBehindWithKey(key: string -> nat, x: string, first: string, rest: seq<string>, inserted: seq<string>, k: nat)
    requires key(x) > key(first)
    requires WithKey(key, inserted, k) == (if key(x) == k then [x] else []) + WithKey(key, rest, k)
    ensures WithKey(key, [first] + inserted, k) == (if key(x) == k then [x] else []) + WithKey(key, [first] + rest, k)
  {
    WithKeyAppend(key, [first], inserted, k);
    WithKeyAppend(key, [first], rest, k);
    WithKeySingle(key, first, k);
    if key(x) == k {
      assert key(first) != k;
    }
  }

  lemma WithKeySingle(key: string -> nat, x: string, k: nat)
    ensures WithKey(key, [x], k) == if key(x) == k then [x] else []
  {
    assert [x][1..] == [];
  }

  /** The sort is stable: for every key, the names with that key keep their listing order. */
  lemma {:induction false} SortIsStable(key: string -> nat, s: seq<string>, k: nat)
    ensures WithKey(key, SortBy(key, s), k) == WithKey(key, s, k)
    decreases |s|
  {
    if s != [] {
      SortIsStable(key, s[1..], k);
      InsertWithKey(key, s[0], SortBy(key, s[1..]), k);
    }
  }

  /** A name without any digit gets key 0, the `|| 0` of the comparator. */
  lemma NoDigitsKeyZero(name: string)
    requires forall k :: 0 <= k < |name| ==> !IsDigit(name[k])
    ensures SortKey(name) == 0
  {
    KeepDigitsOfName("", name);
    assert "" + name == name;
  }

  /** `1.jpg` gets key 1. */
  lemma OneJpgKey()
    ensures SortKey("1.jpg") == 1
  {
    JpgNameDigits("1");
    assert "1" + ".jpg" == "1.jpg";
  }

  /** `10.jpg` gets key 10. */
  lemma TenJpgKey()
    ensures SortKey("10.jpg") == 10
  {
    JpgNameDigits("10");
    assert "10" + ".jpg" == "10.jpg";
    assert "10"[..1] == "1";
    assert ParseDecimal("10") == ParseDecimal("1") * 10 + 0;
  }

  lemma JpgNameDigits(digits: string)
    requires AllDigits(digits)
    ensures KeepDigits(digits + ".jpg") == digits
  {
    assert forall k :: 0 <= k < |".jpg"| ==> !IsDigit(".jpg"[k]);
    KeepDigitsOfName(digits, ".jpg");
  }

  /** So `1.jpg` is listed before `10.jpg`, though it sorts after it as text. */
  lemma NumericNotLexicographic()
    ensures SortBy(SortKey, ["10.jpg", "1.jpg"]) == ["1.jpg", "10.jpg"]
  {
    OneJpgKey();
    TenJpgKey();
    var s := ["10.jpg", "1.jpg"];
    assert s[1..] == ["1.jpg"];
    assert ["1.jpg"][1..] == [];
    assert SortBy(SortKey, ["1.jpg"]) == ["1.jpg"];
  }

  /** The digits of a numbered name with a digit-free extension are the number's. */
  lemma {:induction false} KeepDigitsOfName(digits: string, extension: string)
    requires AllDigits(digits)
    requires forall k :: 0 <= k < |extension| ==> !IsDigit(extension[k])
    ensures KeepDigits(digits + extension) == digits
    decreases |digits| + |extension|
  {
    if digits != [] {
      assert (digits + extension)[1..] == digits[1..] + extension;
      KeepDigitsOfName(digits[1..], extension);
    } else if extension != [] {
      assert (digits + extension)[1..] == [] + extension[1..];
      KeepDigitsOfName([], extension[1..]);
    } else {
      assert digits + extension == [];
    }
  }

  // ---------------------------------------------------------------- response

  /** Each file name as the URL the public directory serves it under. */
  function PublicUrls(names: seq<string>): (r: seq<string>)
    ensures |r| == |names|
    ensures forall i :: 0 <= i < |r| ==> StartsWith(r[i], PublicPrefix) && r[i][|PublicPrefix|..] == names[i]
  {
    seq(|names|, i requires 0 <= i < |names| => PublicPrefix + names[i])
  }

  /** The handler: an empty list when the directory is absent, status 500 when it cannot be read. */
  function GetImages(dir: Directory): (r: Response)
    ensures dir.Missing? ==> r == Images([])
    ensures dir.Unreadable? ==> r == Failure(ListingFailed, ServerErrorStatus)
    ensures dir.Entries? ==> r.Images?
    ensures dir.Entries? ==>
              var listed := SortBy(SortKey, FilterImages(dir.names));
              && |r.images| == |listed|
              && forall i :: 0 <= i < |r.images| ==>
                   StartsWith(r.images[i], PublicPrefix) && r.images[i][|PublicPrefix|..] == listed[i]
  {
    match dir
    case Missing => Images([])
    case Unreadable => Failure(ListingFailed, ServerErrorStatus)
    case Entries(files) => Images(PublicUrls(SortBy(SortKey, FilterImages(files))))
  }

  /** Every listed URL names an image file of the directory, and every image file is listed. */
  lemma ListingIsComplete(names: seq<string>, n: string)
    ensures IsCalendarImage(n) && n in names <==> PublicPrefix + n in GetImages(Entries(names)).images
  {
    var sorted := SortBy(SortKey, FilterImages(names));
    var images := GetImages(Entries(names)).images;
    assert images == PublicUrls(sorted);
    if IsCalendarImage(n) && n in names {
      assert n in multiset(sorted);
      var j :| 0 <= j < |sorted| && sorted[j] == n;
      assert images[j] == PublicPrefix + n;
    }
    if PublicPrefix + n in images {
      var j :| 0 <= j < |images| && images[j] == PublicPrefix + n;
      assert (PublicPrefix + n)[|PublicPrefix|..] == n;
      assert sorted[j] == n;
      assert n in multiset(sorted);
    }
  }

  /** Selecting by key and filtering commute: both keep the order of the names. */
  lemma {:induction false} FilterWithKey(key: string -> nat, names: seq<string>, k: nat)
    ensures WithKey(key, FilterImages(names), k) == FilterImages(WithKey(key, names, k))
    decreases |names|
  {
    if names != [] {
      var x, rest := names[0], names[1..];
      assert names == [x] + rest;
      var kept := if IsCalendarImage(x) then [x] else [];
      var selected := if key(x) == k then [x] else [];
      assert FilterImages(names) == kept + FilterImages(rest);
      assert WithKey(key, names, k) == selected + WithKey(key, rest, k);
      WithKeyAppend(key, kept, FilterImages(rest), k);
      FilterImagesAppend(selected, WithKey(key, rest, k));
      FilterWithKey(key, rest, k);
      OneNameFilters(key, x, k);
    }
  }

  lemma OneNameFilters(key: string -> nat, x: string, k: nat)
    ensures WithKey(key, if IsCalendarImage(x) then [x] else [], k)
         == FilterImages(if key(x) == k then [x] else [])
  {
    assert [x][1..] == [];
  }

  /**
   * The listing is in ascending key order, and the names with any one key
   * are exactly the image files of the directory with that key, in the
   * directory's order.
   */
  lemma ListingOrder(names: seq<string>, k: nat)
    ensures var listed := SortBy(SortKey, FilterImages(names));
            SortedBy(SortKey, listed) && WithKey(SortKey, listed, k) == FilterImages(WithKey(SortKey, names, k))
  {
    SortIsStable(SortKey, FilterImages(names), k);
    FilterWithKey(SortKey, names, k);
  }
}
