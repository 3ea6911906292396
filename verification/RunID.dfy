/** The run ID, the only handle a caller keeps on a custom resource, and the resource
    names it is built from (internal/provider/operator/testrun.go). */
module RunID {
  import opened Wrappers
  import opened Provider
  import opened Strings

  const TEST_RUNS := "testruns"
  const PRIVATE_LOAD_ZONES := "privateloadzones"

  /** What identifies a custom resource in the cluster. */
  datatype Key = Key(namespace: string, resource: string, name: string)

  predicate Recognised(resource: string) {
    resource == TEST_RUNS || resource == PRIVATE_LOAD_ZONES
  }

  predicate WellFormed(k: Key) {
    '/' !in k.namespace && Recognised(k.resource) && '/' !in k.name
  }

  function EncodeRunID(k: Key): string
  {
    k.namespace + "/" + (k.resource + "/" + k.name)
  }

  lemma {:induction false} FirstPiecesHoldNoSeparator(s: string, sep: char, n: nat)
    requires n > 0
    ensures forall k :: 0 <= k < |SplitN(s, sep, n)| - 1 ==> sep !in SplitN(s, sep, n)[k]
    ensures Join(SplitN(s, sep, n), sep) == s
    decreases n
  {
    var i := IndexOf(s, sep);
    if n == 1 || i == |s| {
    } else {
      var rest := SplitN(s[i + 1..], sep, n - 1);
      FirstPiecesHoldNoSeparator(s[i + 1..], sep, n - 1);
      var all := SplitN(s, sep, n);
      assert all == [s[..i]] + rest && all[1..] == rest;
      assert s == s[..i] + [sep] + s[i + 1..];
    }
  }

  function DecodeRunID(runID: string): (r: Result<Key, Error>)
    ensures r.Success? ==> WellFormed(r.value)
  {
    var parts := SplitN(runID, '/', 3);
    if |parts| != 3 then Failure(RunIDInvalid)
    else if !Recognised(parts[1]) then Failure(RunIDInvalid)
    else if '/' in parts[2] then Failure(RunIDInvalid)
    else
      FirstPiecesHoldNoSeparator(runID, '/', 3);
      Success(Key(parts[0], parts[1], parts[2]))
  }

  lemma {:induction false} SplitNHead(head: string, rest: string, sep: char, n: nat)
    requires sep !in head && n > 1
    ensures SplitN(head + [sep] + rest, sep, n) == [head] + SplitN(rest, sep, n - 1)
  {
    var s := head + [sep] + rest;
    IndexAfter(head, sep, rest);
    assert s[..|head|] == head;
    assert s[|head| + 1..] == rest;
  }

  lemma {:induction false} RecognisedHasNoSlash(resource: string)
    requires Recognised(resource)
    ensures '/' !in resource
  {}

  lemma {:induction false} EncodedParts(a: string, b: string, c: string)
    requires '/' !in a && '/' !in b && '/' !in c
    ensures SplitN(a + "/" + (b + "/" + c), '/', 3) == [a, b, c]
  {
    SplitNHead(a, b + "/" + c, '/', 3);
    SplitNHead(b, c, '/', 2);
  }

  /** Decoding undoes encoding for every slash-free namespace, recognised resource and
      slash-free name, empty ones included. */
  lemma {:induction false} DecodeEncode(k: Key)
    requires WellFormed(k)
    ensures DecodeRunID(EncodeRunID(k)) == Success(k)
  {
    RecognisedHasNoSlash(k.resource);
    EncodedParts(k.namespace, k.resource, k.name);
  }

  /** Encoding undoes decoding for every accepted string. */
  lemma {:induction false} EncodeDecode(runID: string)
    requires DecodeRunID(runID).Success?
    ensures EncodeRunID(DecodeRunID(runID).value) == runID
  {
    var parts := SplitN(runID, '/', 3);
    FirstPiecesHoldNoSeparator(runID, '/', 3);
    assert parts[1..][1..] == [parts[2]];
    assert Join(parts[1..], '/') == parts[1] + "/" + parts[2];
    assert runID == parts[0] + "/" + (parts[1] + "/" + parts[2]);
  }

  /** s has exactly two slashes, at i and j, and a recognised word between them. */
  ghost predicate TwoSlashesAt(s: string, i: nat, j: nat)
  {
    && i < j < |s| && s[i] == '/' && s[j] == '/'
    && (forall k :: 0 <= k < |s| && k != i && k != j ==> s[k] != '/')
    && Recognised(s[i + 1..j])
  }

  lemma {:induction false} SlicesRejoin(s: string, i: nat, j: nat)
    requires i < j < |s| && s[i] == '/' && s[j] == '/'
    ensures s == s[..i] + "/" + (s[i + 1..j] + "/" + s[j + 1..])
  {}

  lemma {:induction false} TwoSlashesDecode(s: string, i: nat, j: nat)
    requires TwoSlashesAt(s, i, j)
    ensures DecodeRunID(s) == Success(Key(s[..i], s[i + 1..j], s[j + 1..]))
  {
    var a, b, c := s[..i], s[i + 1..j], s[j + 1..];
    assert '/' !in a && '/' !in b && '/' !in c;
    SlicesRejoin(s, i, j);
    DecodeEncode(Key(a, b, c));
  }

  lemma {:induction false} EncodedHasTwoSlashes(k: Key)
    requires WellFormed(k)
    ensures TwoSlashesAt(EncodeRunID(k), |k.namespace|, |k.namespace| + 1 + |k.resource|)
  {
    RecognisedHasNoSlash(k.resource);
    var s, i, j := EncodeRunID(k), |k.namespace|, |k.namespace| + 1 + |k.resource|;
    assert s[i + 1..j] == k.resource;
    forall m | 0 <= m < |s| && m != i && m != j ensures s[m] != '/' {
      if m < i {
        assert s[m] == k.namespace[m];
      } else if m < j {
        assert s[m] == k.resource[m - i - 1];
      } else {
        assert s[m] == k.name[m - j - 1];
      }
    }
  }

  /** A string is accepted exactly when it has two slashes and a recognised middle part. */
  lemma {:induction false} AcceptedIff(s: string)
    ensures DecodeRunID(s).Success? <==> exists i, j :: TwoSlashesAt(s, i, j)
  {
    if DecodeRunID(s).Success? {
      EncodeDecode(s);
      EncodedHasTwoSlashes(DecodeRunID(s).value);
    }
    forall i, j | TwoSlashesAt(s, i, j) ensures DecodeRunID(s).Success? {
      TwoSlashesDecode(s, i, j);
    }
  }

  // ---------- Resource names ----------

  const MAX_NAME_LEN := 253
  const MAX_ROLLOUT_LEN := MAX_NAME_LEN - 12

  function TestRunName(rolloutName: string, short: string): string
  {
    var kept := if |rolloutName| > MAX_ROLLOUT_LEN then rolloutName[..MAX_ROLLOUT_LEN] else rolloutName;
    "k6-" + kept + "-" + short
  }

  /** Names fit in 253 characters, keep the whole hash, stay free of slashes, and two runs
      of one rollout collide only when their hashes do. */
  lemma {:induction false} TestRunNameKeepsHash(rolloutName: string, short: string, short': string)
    requires |short| == |short'| == 8 && '/' !in rolloutName && '/' !in short
    ensures |TestRunName(rolloutName, short)| <= MAX_NAME_LEN
    ensures HasSuffix(TestRunName(rolloutName, short), "-" + short)
    ensures '/' !in TestRunName(rolloutName, short)
    ensures |rolloutName| <= 241 ==> TestRunName(rolloutName, short) == "k6-" + rolloutName + "-" + short
    ensures |rolloutName| > 241 ==>
              |TestRunName(rolloutName, short)| == 253 && "k6-" + rolloutName[..241] <= TestRunName(rolloutName, short)
    ensures TestRunName(rolloutName, short) == TestRunName(rolloutName, short') ==> short == short'
  {
    var a, b := TestRunName(rolloutName, short), TestRunName(rolloutName, short');
    assert a[|a| - 8..] == short && b[|b| - 8..] == short';
    assert a[|a| - 9..] == "-" + short;
  }
}
