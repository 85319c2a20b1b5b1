/**
 * The station catalog that `RadioApp.__init__` builds: an insertion-ordered
 * mapping from a genre key to the ordered list of (name, URL) stations,
 * the sorted genre list shown in the genre drop-down, and the lookup that
 * fills the playlist.
 */
module Catalog {

  datatype Station = Station(name: string, url: string)

  /** One key of the catalog dictionary with its stations, in declared order. */
  datatype Genre = Genre(key: string, stations: seq<Station>)

  /** A Python dict keeps its keys in insertion order; so does this sequence. */
  type Catalog = seq<Genre>

  /** The dictionary's keys, in insertion order (`stations.keys()`). */
  function Labels(c: Catalog): (r: seq<string>)
    ensures |r| == |c|
    ensures forall i :: 0 <= i < |c| ==> r[i] == c[i].key
  {
    if c == [] then [] else [c[0].key] + Labels(c[1..])
  }

  /** Dictionary keys are unique. */
  predicate DistinctLabels(c: Catalog)
  {
    forall i, j :: 0 <= i < j < |c| ==> c[i].key != c[j].key
  }

  /** Every station of every genre has a non-empty URL. */
  predicate UrlsNonEmpty(c: Catalog)
  {
    forall i, j :: 0 <= i < |c| && 0 <= j < |c[i].stations| ==> c[i].stations[j].url != ""
  }

  /** The stations of `genre`, or the empty list when it is not a key (`stations.get(genre, [])`). */
  function StationsIn(c: Catalog, genre: string): (r: seq<Station>)
    ensures (forall i :: 0 <= i < |c| ==> c[i].key != genre) ==> r == []
    ensures forall s :: s in r ==> exists i :: 0 <= i < |c| && c[i].key == genre && s in c[i].stations
  {
    if c == [] then []
    else if c[0].key == genre then c[0].stations
    else StationsIn(c[1..], genre)
  }

  /** With unique keys, the lookup returns exactly the list declared under that key. */
  lemma {:induction false} StationsInDeclared(c: Catalog, i: nat)
    requires DistinctLabels(c)
    requires i < |c|
    ensures StationsIn(c, c[i].key) == c[i].stations
  {
    if i > 0 {
      assert c[0].key != c[i].key;
      assert DistinctLabels(c[1..]) by {
        forall a, b | 0 <= a < b < |c[1..]| ensures c[1..][a].key != c[1..][b].key {
          assert c[1..][a] == c[a + 1] && c[1..][b] == c[b + 1];
        }
      }
      StationsInDeclared(c[1..], i - 1);
    }
  }

  /** An absent genre yields the empty list, and a genre with stations is present. */
  lemma StationsInEmptyIffAbsent(c: Catalog, genre: string)
    requires DistinctLabels(c)
    requires forall i :: 0 <= i < |c| ==> c[i].stations != []
    ensures StationsIn(c, genre) == [] <==> genre !in Labels(c)
  {
    if genre in Labels(c) {
      var i :| 0 <= i < |c| && Labels(c)[i] == genre;
      StationsInDeclared(c, i);
    }
  }

  /** The catalog's URLs have no empty one, so every playlist item names a stream. */
  lemma StationsInUrlsNonEmpty(c: Catalog, genre: string)
    requires UrlsNonEmpty(c)
    ensures forall k :: 0 <= k < |StationsIn(c, genre)| ==> StationsIn(c, genre)[k].url != ""
  {
    forall k | 0 <= k < |StationsIn(c, genre)|
      ensures StationsIn(c, genre)[k].url != ""
    {
      var s := StationsIn(c, genre)[k];
      assert s in StationsIn(c, genre);
      var i :| 0 <= i < |c| && c[i].key == genre && s in c[i].stations;
      var j :| 0 <= j < |c[i].stations| && c[i].stations[j] == s;
    }
  }

  // ---------------------------------------------------------------------
  // Ordering of genre labels: Python compares strings code point by code
  // point, a shorter prefix first.

  predicate StrLessEq(a: string, b: string)
  {
    if a == [] then true
    else if b == [] then false
    else a[0] < b[0] || (a[0] == b[0] && StrLessEq(a[1..], b[1..]))
  }

  lemma {:induction false} StrLessEqReflexive(a: string)
    ensures StrLessEq(a, a)
  {
    if a != [] {
      StrLessEqReflexive(a[1..]);
    }
  }

  lemma {:induction false} StrLessEqTotal(a: string, b: string)
    ensures StrLessEq(a, b) || StrLessEq(b, a)
  {
    if a != [] && b != [] && a[0] == b[0] {
      StrLessEqTotal(a[1..], b[1..]);
    }
  }

  lemma {:induction false} StrLessEqTransitive(a: string, b: string, c: string)
    requires StrLessEq(a, b) && StrLessEq(b, c)
    ensures StrLessEq(a, c)
  {
    if a != [] && b != [] && c != [] && a[0] == b[0] && b[0] == c[0] {
      StrLessEqTransitive(a[1..], b[1..], c[1..]);
    }
  }

  lemma {:induction false} StrLessEqAntisymmetric(a: string, b: string)
    requires StrLessEq(a, b) && StrLessEq(b, a)
    ensures a == b
  {
    if a != [] && b != [] {
      StrLessEqAntisymmetric(a[1..], b[1..]);
      assert a == [a[0]] + a[1..] && b == [b[0]] + b[1..];
    }
  }

  /** Ascending: every earlier key is at most every later one. */
  predicate SortedAscending(s: seq<string>)
  {
    forall i, j :: 0 <= i < j < |s| ==> StrLessEq(s[i], s[j])
  }

  function Insert(x: string, s: seq<string>): (r: seq<string>)
    requires SortedAscending(s)
    ensures SortedAscending(r)
    ensures multiset(r) == multiset(s) + multiset{x}
  {
    if s == [] then [x]
    else if StrLessEq(x, s[0]) then
      assert forall j :: 0 <= j < |s| ==> StrLessEq(x, s[j]) by {
        forall j | 0 <= j < |s| ensures StrLessEq(x, s[j]) {
          if j > 0 { StrLessEqTransitive(x, s[0], s[j]); }
        }
      }
      [x] + s
    else
      StrLessEqTotal(x, s[0]);
      assert s == [s[0]] + s[1..];
      var t := Insert(x, s[1..]);
      assert forall y :: y in multiset(t) ==> StrLessEq(s[0], y) by {
        forall y | y in multiset(t) ensures StrLessEq(s[0], y) {
          assert y in multiset(s[1..]) || y == x;
          if y != x {
            var j :| 0 <= j < |s[1..]| && s[1..][j] == y;
            assert s[j + 1] == y;
          }
        }
      }
      assert forall j :: 0 <= j < |t| ==> StrLessEq(s[0], t[j]) by {
        forall j | 0 <= j < |t| ensures StrLessEq(s[0], t[j]) {
          assert t[j] in multiset(t);
        }
      }
      [s[0]] + t
  }

  /** Sorts the labels (Python's `sorted`). */
  function Sort(s: seq<string>): (r: seq<string>)
    ensures SortedAscending(r)
    ensures multiset(r) == multiset(s)
  {
    if s == [] then []
    else
      assert s == [s[0]] + s[1..];
      Insert(s[0], Sort(s[1..]))
  }

  /** What `load_genres` adds to the genre drop-down: `sorted(self.stations.keys())`. */
  function SortedGenres(c: Catalog): seq<string>
  {
    Sort(Labels(c))
  }

  /** The genre list is ascending and holds each key exactly as often as the catalog does. */
  lemma SortedGenresSpec(c: Catalog)
    ensures SortedAscending(SortedGenres(c))
    ensures multiset(SortedGenres(c)) == multiset(Labels(c))
    ensures forall g :: g in SortedGenres(c) <==> exists i :: 0 <= i < |c| && c[i].key == g
  {
    var r := SortedGenres(c);
    forall g ensures g in r <==> exists i :: 0 <= i < |c| && c[i].key == g {
      assert g in r <==> g in multiset(r);
      assert g in Labels(c) <==> g in multiset(Labels(c));
      if g in Labels(c) {
        var i :| 0 <= i < |c| && Labels(c)[i] == g;
      }
      if exists i :: 0 <= i < |c| && c[i].key == g {
        var i :| 0 <= i < |c| && c[i].key == g;
        assert Labels(c)[i] == g;
      }
    }
  }

  /** The head of an ascending list is at most each of its elements. */
  lemma HeadIsLeast(s: seq<string>, x: string)
    requires SortedAscending(s)
    requires x in s
    ensures StrLessEq(s[0], x)
  {
    var k :| 0 <= k < |s| && s[k] == x;
    if k == 0 { StrLessEqReflexive(x); }
  }

  lemma SortedTail(s: seq<string>)
    requires SortedAscending(s) && s != []
    ensures SortedAscending(s[1..])
  {
    forall i, j | 0 <= i < j < |s[1..]| ensures StrLessEq(s[1..][i], s[1..][j]) {
      assert s[1..][i] == s[i + 1] && s[1..][j] == s[j + 1];
    }
  }

  lemma MultisetTail(a: seq<string>, b: seq<string>)
    requires a != [] && b != [] && a[0] == b[0]
    requires multiset(a) == multiset(b)
    ensures multiset(a[1..]) == multiset(b[1..])
  {
    assert a == [a[0]] + a[1..] && b == [b[0]] + b[1..];
    assert multiset(a) == multiset([a[0]]) + multiset(a[1..]);
    assert multiset(b) == multiset([b[0]]) + multiset(b[1..]);
    forall x ensures multiset(a[1..])[x] == multiset(b[1..])[x] {
      assert multiset(a)[x] == multiset([a[0]])[x] + multiset(a[1..])[x];
      assert multiset(b)[x] == multiset([b[0]])[x] + multiset(b[1..])[x];
    }
  }

  /** Two ascending lists with the same elements are the same list: sorting has one answer. */
  lemma {:induction false} SortedUnique(a: seq<string>, b: seq<string>)
    requires SortedAscending(a) && SortedAscending(b)
    requires multiset(a) == multiset(b)
    ensures a == b
  {
    if a == [] {
      assert |b| == |multiset(b)| == 0;
    } else {
      assert |b| == |multiset(b)| == |a|;
      assert a[0] in multiset(b) && b[0] in multiset(a);
      HeadIsLeast(b, a[0]);
      HeadIsLeast(a, b[0]);
      StrLessEqAntisymmetric(a[0], b[0]);
      MultisetTail(a, b);
      SortedTail(a);
      SortedTail(b);
      SortedUnique(a[1..], b[1..]);
      assert a == [a[0]] + a[1..] && b == [b[0]] + b[1..];
    }
  }

  // ---------------------------------------------------------------------
  // The catalog hard-coded in `RadioApp.__init__`.

  function Default(): Catalog
  {
    [ Genre("Classic Rock", [
        Station("Classic Rock Florida", "http://stream.abacast.net/playlist/classic-rock-florida-hd-48k.m3u"),
        Station("Absolute Classic Rock", "http://icecast.timlradio.co.uk/ac-high.mp3"),
        Station("Rock Antenne", "http://mp3.webradio.antenne.de:80/rockantenne/stream")]),
      Genre("80s Hits", [
        Station("Absolute 80s", "http://icecast.timlradio.co.uk/a8-high.mp3"),
        Station("80s80s", "http://80s80s.hoerradar.de/80s80s-mp3-128"),
        Station("Awesome 80s", "https://streams.abidingradio.org/awesome80s")]),
      Genre("Jazz", [
        Station("Jazz24", "https://jazz24.org/streams/high.m3u"),
        Station("TSF Jazz", "http://tsfjazz.ice.infomaniak.ch/tsfjazz-high.mp3"),
        Station("Swiss Jazz", "http://stream.srg-ssr.ch/m/rsj/mp3_128")]),
      Genre("Electronic / Chill", [
        Station("SomaFM: Groove Salad", "http://ice.somafm.com/groovesalad-128-mp3"),
        Station("SomaFM: Drone Zone", "http://ice.somafm.com/dronezone-128-mp3"),
        Station("Radio Paradise (Mellow)", "http://stream.radioparadise.com/mellow-flac")]),
      Genre("Classical", [
        Station("Linn Classical", "http://radio.linn.co.uk:8004/autodj"),
        Station("Venice Classic Radio", "http://174.36.1.135:8006/stream"),
        Station("Radio Swiss Classic", "http://stream.srg-ssr.ch/m/rsc_de/mp3_128")]) ]
  }

  /** The built-in catalog has unique keys and no empty URL. */
  lemma DefaultWellFormed()
    ensures DistinctLabels(Default())
    ensures UrlsNonEmpty(Default())
  {
  }

  /** The default genre keys, listed in code point order. */
  lemma DefaultKeysAscending()
    ensures SortedAscending(["80s Hits", "Classic Rock", "Classical", "Electronic / Chill", "Jazz"])
  {
    var e := ["80s Hits", "Classic Rock", "Classical", "Electronic / Chill", "Jazz"];
    assert StrLessEq(e[0], e[1]) && StrLessEq(e[0], e[2]) && StrLessEq(e[0], e[3]) && StrLessEq(e[0], e[4]);
    assert StrLessEq(e[1], e[2]) && StrLessEq(e[1], e[3]) && StrLessEq(e[1], e[4]);
    assert StrLessEq(e[2], e[3]) && StrLessEq(e[2], e[4]);
    assert StrLessEq(e[3], e[4]);
  }

  /** The keys of the built-in catalog, in declared order. */
  lemma DefaultKeys()
    ensures Labels(Default()) == ["Classic Rock", "80s Hits", "Jazz", "Electronic / Chill", "Classical"]
  {
  }

  /** Appending one element adds it to the multiset. */
  lemma SnocMultiset<T>(a: seq<T>, x: T)
    ensures multiset(a + [x]) == multiset(a) + multiset{x}
  {
  }

  /** The multiset of five elements, built one element at a time. */
  lemma MultisetOfFive<T>(p: T, q: T, r: T, s: T, t: T)
    ensures multiset([p, q, r, s, t]) == multiset{p} + multiset{q} + multiset{r} + multiset{s} + multiset{t}
  {
    assert [p, q] == [p] + [q];
    assert [p, q, r] == [p, q] + [r];
    assert [p, q, r, s] == [p, q, r] + [s];
    assert [p, q, r, s, t] == [p, q, r, s] + [t];
    SnocMultiset([p], q);
    SnocMultiset([p, q], r);
    SnocMultiset([p, q, r], s);
    SnocMultiset([p, q, r, s], t);
  }

  /** Reordering five keys the way code point order reorders the built-in ones keeps the multiset. */
  lemma ReorderFive<T>(p: T, q: T, r: T, s: T, t: T)
    ensures multiset([p, q, r, s, t]) == multiset([q, p, t, s, r])
  {
    MultisetOfFive(p, q, r, s, t);
    MultisetOfFive(q, p, t, s, r);
    assert multiset{p} + multiset{q} + multiset{r} + multiset{s} + multiset{t}
        == multiset{q} + multiset{p} + multiset{t} + multiset{s} + multiset{r};
  }

  lemma DefaultKeysMultiset()
    ensures multiset(Labels(Default())) == multiset(["80s Hits", "Classic Rock", "Classical", "Electronic / Chill", "Jazz"])
  {
    DefaultKeys();
    ReorderFive("Classic Rock", "80s Hits", "Jazz", "Electronic / Chill", "Classical");
  }

  /** The drop-down lists the five genres in code point order. */
  lemma DefaultGenres()
    ensures SortedGenres(Default()) == ["80s Hits", "Classic Rock", "Classical", "Electronic / Chill", "Jazz"]
  {
    var expected := ["80s Hits", "Classic Rock", "Classical", "Electronic / Chill", "Jazz"];
    DefaultKeysMultiset();
    DefaultKeysAscending();
    SortedUnique(SortedGenres(Default()), expected);
  }

  /** The Jazz playlist lists its stations in declared order. */
  lemma DefaultJazz()
    ensures StationsIn(Default(), "Jazz") == [
      Station("Jazz24", "https://jazz24.org/streams/high.m3u"),
      Station("TSF Jazz", "http://tsfjazz.ice.infomaniak.ch/tsfjazz-high.mp3"),
      Station("Swiss Jazz", "http://stream.srg-ssr.ch/m/rsj/mp3_128")]
  {
    DefaultWellFormed();
    StationsInDeclared(Default(), 2);
  }
}
