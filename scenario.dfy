/** The demonstration program's scenario: three vectors are stored ("King",
    "Queen", "Apple") and the store is asked for the two entries closest to a
    "royalty" query. Components are the demonstration's values scaled by 100,
    which leaves every cosine unchanged. */
module Scenario {
  import opened Cosine
  import opened VectorStore

  /** The dot product of two three-component vectors, written out. */
  lemma DotOfThree(a: seq<int>, b: seq<int>)
    requires |a| == 3 && |b| == 3
    ensures Dot(a, b) == a[0] * b[0] + a[1] * b[1] + a[2] * b[2]
  {
    var a2, b2 := a[..2], b[..2];
    var a1, b1 := a2[..1], b2[..1];
    assert a[..|a| - 1] == a2 && b[..|b| - 1] == b2;
    assert a2[..|a2| - 1] == a1 && b2[..|b2| - 1] == b1;
    assert a1[..|a1| - 1] == [] && b1[..|b1| - 1] == [];
    assert Dot(a1, b1) == a[0] * b[0];
    assert Dot(a2, b2) == a[0] * b[0] + a[1] * b[1];
  }

  /** The cosine scores of the three stored vectors against the query. */
  lemma ScenarioScores(query: seq<int>, king: seq<int>, queen: seq<int>, apple: seq<int>)
    requires query == [95, 15, 0] && king == [100, 10, 0]
    requires queen == [90, 20, 0] && apple == [0, 80, 90]
    ensures Similarity(query, king) > Similarity(query, queen) > Similarity(query, apple)
  {
    DotOfThree(query, king);
    DotOfThree(query, queen);
    DotOfThree(query, apple);
    DotOfThree(query, query);
    DotOfThree(king, king);
    DotOfThree(queen, queen);
    DotOfThree(apple, apple);
    assert Similarity(query, king) == (9650 * 9650) as real / ((9250 * 10100) as real);
    assert Similarity(query, queen) == (8850 * 8850) as real / ((9250 * 8500) as real);
    assert Similarity(query, apple) == (1200 * 1200) as real / ((9250 * 14500) as real);
  }

  /** The query returns King first, then Queen; Apple is left out. */
  method KingThenQueen() returns (ids: seq<string>)
    ensures ids == ["1", "2"]
  {
    var db := new VectorDB();
    var king := Vector("1", [100, 10, 0], "King");
    var queen := Vector("2", [90, 20, 0], "Queen");
    var apple := Vector("3", [0, 80, 90], "Apple");
    db.Insert(king);
    db.Insert(queen);
    db.Insert(apple);
    var query := [95, 15, 0];
    var matches := db.Query(query, 2);
    ScenarioScores(query, king.values, queen.values, apple.values);
    ghost var scored := Scored(db.storage, query);
    assert scored == [scored[0], scored[1], scored[2]];
    TopTwoOfThree(matches, scored);
    ids := [matches[0].vector.id, matches[1].vector.id];
  }
}
