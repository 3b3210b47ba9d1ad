/** `AzureUploader.upload_dataset` (data_uploader.py): the next dataset version is
    one more than the largest all-digit version already registered under the name. */
module Versioning {
  import opened Wrappers
  import opened Digits

  /** The largest `int(v)` over the all-digit entries of `vs`, or 0 if there are
      none: `max([int(v) for v in vs if v.isdigit()], default=0)`. */
  function MaxNumeric(vs: seq<string>): (m: nat)
    ensures forall i :: 0 <= i < |vs| && IsDigits(vs[i]) ==> DigitsValue(vs[i]) <= m
    ensures m == 0 || exists i :: 0 <= i < |vs| && IsDigits(vs[i]) && DigitsValue(vs[i]) == m
  {
    if vs == [] then 0
    else
      var rest := MaxNumeric(vs[1..]);
      assert forall i :: 1 <= i < |vs| ==> vs[i] == vs[1..][i - 1];
      if IsDigits(vs[0]) && DigitsValue(vs[0]) > rest then DigitsValue(vs[0]) else rest
  }

  /** `next_version`: strictly above every numeric version, and the least such
      value (one above the largest numeric version, or 1 when there is none). */
  function NextVersion(vs: seq<string>): (n: nat)
    ensures n >= 1
    ensures forall i :: 0 <= i < |vs| && IsDigits(vs[i]) ==> DigitsValue(vs[i]) < n
    ensures n == 1 || exists i :: 0 <= i < |vs| && IsDigits(vs[i]) && DigitsValue(vs[i]) == n - 1
  {
    MaxNumeric(vs) + 1
  }

  /** `str(next_version)`, the version string the new dataset is registered under. */
  function NextVersionString(vs: seq<string>): (r: string)
    ensures IsDigits(r) && DigitsValue(r) == NextVersion(vs)
  {
    ToDecimal(NextVersion(vs))
  }

  /** The new version string is all digits and differs from every existing
      version string, numeric or not. */
  lemma NextVersionIsFresh(vs: seq<string>)
    ensures IsDigits(NextVersionString(vs))
    ensures NextVersionString(vs) !in vs
  {
    var r := NextVersionString(vs);
    forall i | 0 <= i < |vs|
      ensures vs[i] != r
    {
      if IsDigits(vs[i]) {
        assert DigitsValue(vs[i]) < DigitsValue(r);
      }
    }
  }

  /** With no all-digit versions (an empty listing included) the next version is 1. */
  lemma NoNumericVersionGivesOne(vs: seq<string>)
    requires forall i :: 0 <= i < |vs| ==> !IsDigits(vs[i])
    ensures NextVersion(vs) == 1
    ensures NextVersionString(vs) == "1"
  {
    assert DigitChar(1) == '1';
  }

  /** The next version depends only on which strings are listed, not on their
      order or multiplicity. */
  lemma NextVersionDependsOnlyOnListedSet(a: seq<string>, b: seq<string>)
    requires forall v :: v in a <==> v in b
    ensures NextVersion(a) == NextVersion(b)
  {
    var na, nb := NextVersion(a), NextVersion(b);
    if na != 1 {
      var i :| 0 <= i < |a| && IsDigits(a[i]) && DigitsValue(a[i]) == na - 1;
      assert a[i] in b;
      var j :| 0 <= j < |b| && b[j] == a[i];
      assert na - 1 < nb;
    }
    if nb != 1 {
      var j :| 0 <= j < |b| && IsDigits(b[j]) && DigitsValue(b[j]) == nb - 1;
      assert b[j] in a;
      var i :| 0 <= i < |a| && a[i] == b[j];
      assert nb - 1 < na;
    }
  }

  /** The listing "1", "2", "x", "5" gives version "6". */
  lemma NextVersionExample()
    ensures NextVersionString(["1", "2", "x", "5"]) == "6"
  {
    var vs := ["1", "2", "x", "5"];
    assert IsDigits(vs[3]) && DigitsValue(vs[3]) == 5 by {
      assert vs[3][..0] == [];
    }
    assert vs[2][0] == 'x' && !IsDigits(vs[2]);
    assert IsDigits(vs[0]) && DigitsValue(vs[0]) == 1 by {
      assert vs[0][..0] == [];
    }
    assert IsDigits(vs[1]) && DigitsValue(vs[1]) == 2 by {
      assert vs[1][..0] == [];
    }
    assert MaxNumeric(vs[3..]) == 5 by {
      assert vs[3..][0] == vs[3] && vs[3..][1..] == [];
    }
    assert MaxNumeric(vs[2..]) == 5 by {
      assert vs[2..][0] == vs[2] && vs[2..][1..] == vs[3..];
    }
    assert MaxNumeric(vs[1..]) == 5 by {
      assert vs[1..][0] == vs[1] && vs[1..][1..] == vs[2..];
    }
    assert MaxNumeric(vs) == 5;
    assert DigitChar(6) == '6';
  }

  /** A registered data asset of the workspace. */
  datatype DataAsset = DataAsset(name: string, version: string, path: string, description: string)

  /** The uploader together with the workspace's data registry it writes to
      through its client: `ml_client.data` is the `datasets` field, and the
      two flags script whether `data.list` and `data.create_or_update` raise. */
  class AzureUploader {
    var datasets: seq<DataAsset>
    const listFails: bool
    const createFails: bool

    constructor (existing: seq<DataAsset>, listFails: bool, createFails: bool)
      ensures datasets == existing
      ensures this.listFails == listFails && this.createFails == createFails
    {
      datasets := existing;
      this.listFails, this.createFails := listFails, createFails;
    }

    /** The versions `ml_client.data.list(name=...)` reports for `name`. */
    function VersionsOf(name: string): (vs: seq<string>)
      reads this
      ensures |vs| <= |datasets|
      ensures forall v :: v in vs <==> exists d :: d in datasets && d.name == name && d.version == v
    {
      Listed(datasets, name)
    }

    /** Registers a new version of the dataset `name`, numbered one past the
        largest numeric version listed, and returns that version string; None
        when listing or registering raises, and then the registry is as it was. */
    method UploadDataset(name: string, path: string, description: string) returns (version: Option<string>)
      modifies this
      ensures version.Some? <==> !listFails && !createFails
      ensures version.Some? ==>
        version.value == NextVersionString(old(VersionsOf(name))) &&
        version.value !in old(VersionsOf(name))
      ensures datasets == if version.Some? then old(datasets) + [DataAsset(name, version.value, path, description)]
                          else old(datasets)
      ensures VersionsOf(name) == old(VersionsOf(name)) + (if version.Some? then [version.value] else [])
    {
      if listFails {
        return None;
      }
      var existing := VersionsOf(name);
      var next := ToDecimal(NextVersion(existing));
      if createFails {
        return None;
      }
      NextVersionIsFresh(existing);
      ListedAppend(datasets, DataAsset(name, next, path, description), name);
      datasets := datasets + [DataAsset(name, next, path, description)];
      version := Some(next);
    }
  }

  /** The version strings of the assets called `name`, in registry order. */
  function Listed(ds: seq<DataAsset>, name: string): (vs: seq<string>)
    ensures |vs| <= |ds|
    ensures forall v :: v in vs <==> exists d :: d in ds && d.name == name && d.version == v
  {
    if ds == [] then []
    else (if ds[0].name == name then [ds[0].version] else []) + Listed(ds[1..], name)
  }

  lemma {:induction false} ListedAppend(ds: seq<DataAsset>, d: DataAsset, name: string)
    ensures Listed(ds + [d], name) == Listed(ds, name) + (if d.name == name then [d.version] else [])
  {
    if ds == [] {
      assert ds + [d] == [d];
    } else {
      assert (ds + [d])[1..] == ds[1..] + [d];
      ListedAppend(ds[1..], d, name);
    }
  }
}
