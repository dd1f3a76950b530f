/** The file name of a cached blob. */
module BlobNames {
  import IndexFile

  /** str.replace("..", ""), left to right without overlaps. */
  function WithoutDots(s: string): string {
    if |s| >= 2 && s[0] == '.' && s[1] == '.' then WithoutDots(s[2..])
    else if s == "" then ""
    else [s[0]] + WithoutDots(s[1..])
  }

  function WithoutChar(s: string, c: char): (r: string)
    ensures c !in r
    ensures forall x :: x in r ==> x in s
    ensures |r| <= |s|
  {
    if s == "" then "" else (if s[0] == c then "" else [s[0]]) + WithoutChar(s[1..], c)
  }

  function Safe(key: string): string {
    var t := WithoutChar(WithoutChar(WithoutDots(key), '/'), '\\');
    if |t| > 240 then t[..240] else t
  }

  function BlobName(key: string): string {
    "mixdl_" + Safe(key)
  }

  /** Whatever the key, its blob is one file directly under the cache root. */
  lemma NameIsOneComponent(key: string)
    ensures '/' !in BlobName(key) && '\\' !in BlobName(key)
    ensures BlobName(key) != "" && BlobName(key) != "." && BlobName(key) != ".."
    ensures |BlobName(key)| <= 246
  {
  }

  /** The keys that their own blob name spells out. */
  predicate Plain(key: string) {
    && |key| <= 240
    && '/' !in key && '\\' !in key
    && forall i :: 0 < i < |key| ==> key[i - 1] != '.' || key[i] != '.'
  }

  lemma {:induction false} DotsStay(key: string)
    requires forall i :: 0 < i < |key| ==> key[i - 1] != '.' || key[i] != '.'
    ensures WithoutDots(key) == key
  {
    if key != "" {
      assert forall i :: 0 < i < |key[1..]| ==> key[1..][i - 1] == key[i] && key[1..][i] == key[i + 1];
      DotsStay(key[1..]);
    }
  }

  lemma {:induction false} DotsShorten(key: string)
    ensures |WithoutDots(key)| <= |key|
    ensures |WithoutDots(key)| == |key| ==> forall i :: 0 < i < |key| ==> key[i - 1] != '.' || key[i] != '.'
  {
    if |key| >= 2 && key[0] == '.' && key[1] == '.' {
      DotsShorten(key[2..]);
    } else if key != "" {
      var rest := key[1..];
      DotsShorten(rest);
      if |WithoutDots(key)| == |key| {
        forall i | 0 < i < |key|
          ensures key[i - 1] != '.' || key[i] != '.'
        {
          if i > 1 {
            assert rest[i - 2] == key[i - 1] && rest[i - 1] == key[i];
          }
        }
      }
    }
  }

  lemma {:induction false} NothingToRemove(key: string, c: char)
    requires c !in key
    ensures WithoutChar(key, c) == key
  {
    if key != "" {
      NothingToRemove(key[1..], c);
    }
  }

  lemma {:induction false} RemovingShortens(key: string, c: char)
    requires c in key
    ensures |WithoutChar(key, c)| < |key|
  {
    if key[0] != c {
      assert c in key[1..];
      RemovingShortens(key[1..], c);
    }
  }

  /** Exactly which keys are kept as they are. */
  lemma KeptExactly(key: string)
    ensures Safe(key) == key <==> Plain(key)
  {
    if Plain(key) {
      DotsStay(key);
      NothingToRemove(key, '/');
      NothingToRemove(key, '\\');
    }
    if Safe(key) == key {
      DotsShorten(key);
      var t := WithoutDots(key);
      var u := WithoutChar(t, '/');
      assert |Safe(key)| <= |WithoutChar(u, '\\')| <= |u| <= |t| <= |key|;
      if '/' in t {
        RemovingShortens(t, '/');
      }
      NothingToRemove(t, '/');
      if '\\' in t {
        RemovingShortens(t, '\\');
      }
      DotsStay(key);
    }
  }

  /** Plain keys keep their blobs apart. */
  lemma PlainNamesAreInjective(a: string, b: string)
    requires Plain(a) && Plain(b)
    ensures BlobName(a) == "mixdl_" + a
    ensures BlobName(a) == BlobName(b) <==> a == b
  {
    KeptExactly(a);
    KeptExactly(b);
    assert BlobName(a)[6..] == a && BlobName(b)[6..] == b;
  }

  lemma {:induction false} DotsBeforeSlash(key: string)
    ensures WithoutDots(key + "/") == WithoutDots(key) + "/"
  {
    var longer := key + "/";
    if |key| >= 2 && key[0] == '.' && key[1] == '.' {
      assert longer[2..] == key[2..] + "/";
      DotsBeforeSlash(key[2..]);
    } else if key != "" {
      assert longer[1..] == key[1..] + "/";
      DotsBeforeSlash(key[1..]);
    } else {
      assert longer[1..] == "";
    }
  }

  lemma {:induction false} SlashGoes(s: string)
    ensures WithoutChar(s + "/", '/') == WithoutChar(s, '/')
  {
    if s == "" {
      assert (s + "/")[1..] == "";
    } else {
      assert (s + "/")[1..] == s[1..] + "/";
      SlashGoes(s[1..]);
    }
  }

  /** Beyond the plain keys there is always a collision: every key shares its blob with another one. */
  lemma EveryBlobIsShared(key: string)
    ensures !Plain(key + "/") && BlobName(key + "/") == BlobName(key)
  {
    assert (key + "/")[|key|] == '/';
    DotsBeforeSlash(key);
    SlashGoes(WithoutDots(key));
  }

  /** In particular hex digests keep their blobs apart. */
  lemma HexNamesAreInjective(a: string, b: string)
    requires IndexFile.Hex(a) && IndexFile.Hex(b) && |a| <= 240 && |b| <= 240
    ensures BlobName(a) == "mixdl_" + a
    ensures BlobName(a) == BlobName(b) <==> a == b
  {
    assert Plain(a) && Plain(b);
    PlainNamesAreInjective(a, b);
  }

  /** Two keys that share a blob. */
  lemma OtherNamesCollide()
    ensures BlobName("a/b") == BlobName("ab")
  {
    KeptExactly("ab");
    DotsStay("a/b");
    assert "a/b"[1..] == "/b" && "/b"[1..] == "b" && "b"[1..] == "";
    assert WithoutChar("b", '/') == "b";
    assert WithoutChar("/b", '/') == "b";
    assert WithoutChar("a/b", '/') == "ab";
    NothingToRemove("ab", '\\');
  }

  /** A longer key without separators and double dots keeps its first 240 characters. */
  lemma LongKeyIsCut(key: string)
    requires |key| > 240 && Plain(key[..240]) && '/' !in key && '\\' !in key
    requires forall i :: 0 < i < |key| ==> key[i - 1] != '.' || key[i] != '.'
    ensures BlobName(key) == "mixdl_" + key[..240]
  {
    DotsStay(key);
    NothingToRemove(key, '/');
    NothingToRemove(key, '\\');
  }

  lemma {:induction false} DotsGo(a: string, b: string)
    requires '.' !in a
    ensures WithoutDots(a + ".." + b) == a + WithoutDots(b)
  {
    var s := a + ".." + b;
    if a == "" {
      assert s == ".." + b && s[2..] == b;
    } else {
      DotsGo(a[1..], b);
      assert s[0] == a[0] && s[1..] == a[1..] + ".." + b;
      assert a == [a[0]] + a[1..];
    }
  }

  lemma {:induction false} CharGoes(a: string, c: char, b: string)
    requires c !in a
    ensures WithoutChar(a + [c] + b, c) == a + WithoutChar(b, c)
  {
    var s := a + [c] + b;
    if a == "" {
      assert s == [c] + b && s[1..] == b;
    } else {
      CharGoes(a[1..], c, b);
      assert s[0] == a[0] && s[1..] == a[1..] + [c] + b;
      assert a == [a[0]] + a[1..];
    }
  }

  /** A pair of dots goes, and so does a separator of either kind; a third dot stays. */
  lemma WhatGoes(a: string, b: string)
    requires '.' !in a && Plain(a) && Plain(b) && |a + b| <= 240
    ensures BlobName(a + ".." + b) == "mixdl_" + a + b
    ensures BlobName(a + "/" + b) == "mixdl_" + a + b
    ensures BlobName(a + "\\" + b) == "mixdl_" + a + b
  {
    assert a + ['/'] + b == a + "/" + b && a + ['\\'] + b == a + "\\" + b;
    DotsGo(a, b);
    DotsStay(b);
    DotsStay(a + "/" + b);
    DotsStay(a + "\\" + b);
    CharGoes(a, '/', b);
    CharGoes(a, '\\', b);
    NothingToRemove(a + b, '/');
    NothingToRemove(a + b, '\\');
    NothingToRemove(b, '/');
    NothingToRemove(b, '\\');
    NothingToRemove(a + "\\" + b, '/');
    assert "mixdl_" + (a + b) == "mixdl_" + a + b;
  }
}
