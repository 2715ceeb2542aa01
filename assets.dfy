/** The six bundled avatar images shared by both forms. Each image import is an
    opaque asset reference; only its identity matters to the forms. */
module Assets {

  datatype Avatar = Avatar1 | Avatar2 | Avatar3 | Avatar4 | Avatar5 | Avatar6

  /** The `avatars` array, in display order; `Avatars[0]` is the default choice. */
  const Avatars: seq<Avatar> := [Avatar1, Avatar2, Avatar3, Avatar4, Avatar5, Avatar6]

  /** The list is exactly the closed set of six images, each listed once. */
  lemma AvatarsListEachImageOnce()
    ensures |Avatars| == 6 && Avatars[0] == Avatar1
    ensures forall a: Avatar :: a in Avatars
    ensures forall i, j :: 0 <= i < j < |Avatars| ==> Avatars[i] != Avatars[j]
  {
    forall a: Avatar ensures a in Avatars {
      match a
      case Avatar1 => assert Avatars[0] == a;
      case Avatar2 => assert Avatars[1] == a;
      case Avatar3 => assert Avatars[2] == a;
      case Avatar4 => assert Avatars[3] == a;
      case Avatar5 => assert Avatars[4] == a;
      case Avatar6 => assert Avatars[5] == a;
    }
  }
}
