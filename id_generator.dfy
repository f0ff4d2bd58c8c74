/** Land codes (api/lib/idGenerator.js): six characters drawn at random from a
    62-letter alphabet, redrawn until no Land uses the code as its customId.
    `Math.random()` is an oracle: the caller supplies the values it returns,
    in order. */
module IdGenerator {
  import opened Js
  import opened Store

  const Chars := "ABCDEFGHIJKLMNOPQRSTUVWXYZabcdefghijklmnopqrstuvwxyz0123456789"
  const Length := 6

  /** A value `Math.random()` returns. */
  type Draw = r: real | 0.0 <= r < 1.0

  /** `Math.floor(r * chars.length)`: always a valid index into the
      alphabet. */
  function CharIndex(r: Draw): (k: int)
    ensures 0 <= k < |Chars| == 62
  {
    (r * |Chars| as real).Floor
  }

  /** The code one round of draws spells, one character per draw. */
  function CodeOf(draws: seq<Draw>): string {
    seq(|draws|, i requires 0 <= i < |draws| => Chars[CharIndex(draws[i])])
  }

  /** The shape of every Land code: six characters of the alphabet. */
  predicate IsLandCode(code: string) {
    |code| == Length && forall i :: 0 <= i < |code| ==> code[i] in Chars
  }

  lemma CodeOfIsLandCode(draws: seq<Draw>)
    requires |draws| == Length
    ensures IsLandCode(CodeOf(draws))
  {
  }

  /** `generateRandomId`: appends one alphabet character per draw. */
  method GenerateRandomId(draws: seq<Draw>) returns (id: string)
    requires |draws| == Length
    ensures id == CodeOf(draws)
    ensures IsLandCode(id)
  {
    id := "";
    for i := 0 to Length
      invariant id == CodeOf(draws[..i])
    {
      id := id + [Chars[CharIndex(draws[i])]];
    }
    assert draws[..Length] == draws;
  }

  /** Whether some Land already uses `code` as its customId. */
  predicate Taken(lands: Table, code: string) {
    exists id :: id in lands && Get(lands[id], "customId") == Str(code)
  }

  /** Whether, drawing `Length` values per attempt, some attempt in `draws`
      yields a code no Land uses: exactly the runs in which
      `generateSequentialId` returns. */
  predicate FreshWithin(lands: Table, draws: seq<Draw>)
    decreases |draws|
  {
    |draws| >= Length &&
    (!Taken(lands, CodeOf(draws[..Length])) || FreshWithin(lands, draws[Length..]))
  }

  /** The code of the first attempt that no Land uses. */
  function FirstFree(lands: Table, draws: seq<Draw>): (code: string)
    requires FreshWithin(lands, draws)
    ensures IsLandCode(code) && !Taken(lands, code)
    decreases |draws|
  {
    var code := CodeOf(draws[..Length]);
    if !Taken(lands, code) then code else FirstFree(lands, draws[Length..])
  }

  /** Drawing one attempt: a free code ends the search, a taken one moves it
      on to the next `Length` draws. */
  lemma {:induction false} FirstFreeStep(lands: Table, draws: seq<Draw>)
    requires FreshWithin(lands, draws)
    ensures !Taken(lands, CodeOf(draws[..Length])) ==> FirstFree(lands, draws) == CodeOf(draws[..Length])
    ensures Taken(lands, CodeOf(draws[..Length])) ==>
      FreshWithin(lands, draws[Length..]) && FirstFree(lands, draws) == FirstFree(lands, draws[Length..])
  {
  }

  /** The attempt starting at draw `i`, in terms of the whole run. */
  lemma AttemptStep(lands: Table, draws: seq<Draw>, i: nat)
    requires i <= |draws| && FreshWithin(lands, draws[i..])
    ensures i + Length <= |draws|
    ensures !Taken(lands, CodeOf(draws[i..i + Length])) ==>
      FirstFree(lands, draws[i..]) == CodeOf(draws[i..i + Length])
    ensures Taken(lands, CodeOf(draws[i..i + Length])) ==>
      FreshWithin(lands, draws[i + Length..]) &&
      FirstFree(lands, draws[i..]) == FirstFree(lands, draws[i + Length..])
  {
    FirstFreeStep(lands, draws[i..]);
    assert draws[i..][..Length] == draws[i..i + Length];
    assert draws[i..][Length..] == draws[i + Length..];
  }

  /** `prisma.land.findUnique({ where: { customId } })` finds a row exactly
      when the code is taken. */
  lemma FoundIffTaken(lands: Table, code: string)
    ensures Taken(lands, code) <==> exists k :: k in lands && Matches(lands[k], map["customId" := Str(code)])
  {
    forall k | k in lands {
      MatchesOne(lands[k], "customId", Str(code));
    }
  }

  /** `generateSequentialId`: redraws while the candidate collides. Only the
      Land table is read; nothing is written. */
  method GenerateSequentialId(db: Db, draws: seq<Draw>) returns (id: string)
    requires db.Valid()
    requires FreshWithin(db.tables[Land], draws)
    ensures id == FirstFree(db.tables[Land], draws)
    ensures IsLandCode(id) && !Taken(db.tables[Land], id)
  {
    ghost var lands := db.tables[Land];
    var isUnique := false;
    var i := 0;
    id := "";
    while !isUnique
      invariant 0 <= i <= |draws|
      invariant !isUnique ==> FreshWithin(lands, draws[i..])
      invariant !isUnique ==> FirstFree(lands, draws) == FirstFree(lands, draws[i..])
      invariant isUnique ==> id == FirstFree(lands, draws)
      decreases |draws| - i, if isUnique then 0 else 1
    {
      ghost var attempt := draws[i..i + Length];
      assert Taken(lands, CodeOf(attempt)) ==>
          FreshWithin(lands, draws[i + Length..]) &&
          FirstFree(lands, draws[i..]) == FirstFree(lands, draws[i + Length..]) by {
        AttemptStep(lands, draws, i);
      }
      assert !Taken(lands, CodeOf(attempt)) ==> FirstFree(lands, draws[i..]) == CodeOf(attempt) by {
        AttemptStep(lands, draws, i);
      }
      id := GenerateRandomId(draws[i..i + Length]);
      var existing := db.FindFirst(Land, map["customId" := Str(id)]);
      assert existing.None? <==> !Taken(lands, id) by {
        FoundIffTaken(lands, id);
      }
      if existing.None? {
        isUnique := true;
      } else {
        i := i + Length;
      }
    }
  }
}
