/** The fixed prize table and wedge sequence of the spin wheel component
    (components/SpinWheel.tsx, lines 9-17). */
module WheelConfig {

  /** A prize key: the icon string the wheel shows on a wedge. */
  type Icon = string

  /** What the prize table stores for one icon: its display name and its wedge colour. */
  datatype PrizeInfo = PrizeInfo(name: string, color: string)

  const Socks: Icon := "\U{1F9E6}"      // sock emoji
  const GoodieBag: Icon := "\U{1F381}"  // wrapped gift emoji
  const RedBull: Icon := "\U{1F964}"    // cup with straw emoji
  const Skittles: Icon := "\U{1F36C}"   // candy emoji
  /** The no-win sentinel (cross mark emoji); landing on it schedules no effect. */
  const NoWin: Icon := "\U{274C}"

  /** The prize table, keyed by icon. */
  const Prizes: map<Icon, PrizeInfo> := map[
    Socks := PrizeInfo("Socken", "#FF9103"),
    GoodieBag := PrizeInfo("Goodie Bag", "#80EB52"),
    RedBull := PrizeInfo("Red Bull", "#F4343E"),
    Skittles := PrizeInfo("Skittles", "#46C3EF"),
    NoWin := PrizeInfo("Kein Gewinn", "#454751")
  ]

  /** The wedges in clockwise order from 12 o'clock. */
  const Segments: seq<Icon> :=
    [RedBull, Skittles, GoodieBag, NoWin, Socks, RedBull, Skittles, GoodieBag, NoWin, Socks]

  /** The five icons are pairwise distinct, so the table has five entries. */
  lemma PrizeTableHasFiveEntries()
    ensures Prizes.Keys == {Socks, GoodieBag, RedBull, Skittles, NoWin}
    ensures |Prizes| == 5
  {
    assert Socks[0] != GoodieBag[0] && Socks[0] != RedBull[0] && Socks[0] != Skittles[0] && Socks[0] != NoWin[0];
    assert GoodieBag[0] != RedBull[0] && GoodieBag[0] != Skittles[0] && GoodieBag[0] != NoWin[0];
    assert RedBull[0] != Skittles[0] && RedBull[0] != NoWin[0] && Skittles[0] != NoWin[0];
    assert |Prizes.Keys| == 5;
  }

  /** Every wedge names a key of the prize table, so the colour lookup of the
      drawing code and the name lookup of the legend are total; the no-win
      sentinel is itself a prize; the second
      half of the wheel repeats the first, which shows every prize once. */
  lemma SegmentsUsePrizeKeys()
    ensures |Segments| == 10
    ensures forall i :: 0 <= i < |Segments| ==> Segments[i] in Prizes
    ensures NoWin in Prizes
    ensures forall i :: 0 <= i < 5 ==> Segments[i + 5] == Segments[i]
    ensures (set i | 0 <= i < 5 :: Segments[i]) == Prizes.Keys
  {
    PrizeTableHasFiveEntries();
    var firstHalf := set i | 0 <= i < 5 :: Segments[i];
    assert firstHalf == {Segments[0], Segments[1], Segments[2], Segments[3], Segments[4]};
  }
}
