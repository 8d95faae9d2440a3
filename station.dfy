/** Stations of the BART network and their two string codes
    (src/client/constants/station.rs): the lower-case four-character
    abbreviation the API uses in URLs, and the full display name.

    `from_abbr` and `from_full` are a Rust `match` over string literals: the
    arms are tried in order and the first equal one wins. Here the arms are
    `Arm(0)`, `Arm(1)`, ... in the source's order, and each look-up is a
    first-match search over them (`Find`). */
module Stations {
  import opened Wrappers
  import opened Ascii
  import opened SerdeHelpers
  import Lexicographic

  datatype Station =
      OaklandCityCenter12thSt
    | SFMission16thSt
    | Oakland19thSt
    | SFMission24thSt
    | Ashby
    | Antioch
    | BalboaPark
    | BayFair
    | CastroValley
    | CivicCenter
    | Coliseum
    | Colma
    | Concord
    | DalyCity
    | DowntownBerkeley
    | DublinPleasanton
    | ElCerritoDelNorte
    | ElCerritoPlaza
    | Embarcadero
    | Fremont
    | Fruitvale
    | GlenPark
    | Hayward
    | Lafayette
    | LakeMerritt
    | MacArthur
    | Millbrae
    | MontgomerySt
    | NorthBerkeley
    | NorthConcordMartinez
    | OaklandIntlAirport
    | Orinda
    | PittsburgBayPoint
    | PittsburgCenter
    | PleasantHill
    | PowellSt
    | Richmond
    | Rockridge
    | SanBruno
    | SanFranciscoIntlAirport
    | SanLeandro
    | SouthHayward
    | SouthSanFrancisco
    | UnionCity
    | WarmSpringsSouthFremont
    | WalnutCreek
    | WestDublin
    | WestOakland

  const StationError := "Does not match any station"

  /** The number of stations, and of arms in each look-up. */
  const Count := 48

  /** The abbreviation of a station: four characters, each a lower-case letter or a digit. */
  function ToAbbr(s: Station): (r: string)
    ensures |r| == 4 && LowerAlnum(r)
  {
    match s
    case OaklandCityCenter12thSt => "12th"
    case SFMission16thSt => "16th"
    case Oakland19thSt => "19th"
    case SFMission24thSt => "24th"
    case Ashby => "ashb"
    case Antioch => "antc"
    case BalboaPark => "balb"
    case BayFair => "bayf"
    case CastroValley => "cast"
    case CivicCenter => "civc"
    case Coliseum => "cols"
    case Colma => "colm"
    case Concord => "conc"
    case DalyCity => "daly"
    case DowntownBerkeley => "dbrk"
    case DublinPleasanton => "dubl"
    case ElCerritoDelNorte => "deln"
    case ElCerritoPlaza => "plza"
    case Embarcadero => "embr"
    case Fremont => "frmt"
    case Fruitvale => "ftvl"
    case GlenPark => "glen"
    case Hayward => "hayw"
    case Lafayette => "lafy"
    case LakeMerritt => "lake"
    case MacArthur => "mcar"
    case Millbrae => "mlbr"
    case MontgomerySt => "mont"
    case NorthBerkeley => "nbrk"
    case NorthConcordMartinez => "ncon"
    case OaklandIntlAirport => "oakl"
    case Orinda => "orin"
    case PittsburgBayPoint => "pitt"
    case PittsburgCenter => "pctr"
    case PleasantHill => "phil"
    case PowellSt => "powl"
    case Richmond => "rich"
    case Rockridge => "rock"
    case SanBruno => "sbrn"
    case SanFranciscoIntlAirport => "sfia"
    case SanLeandro => "sanl"
    case SouthHayward => "shay"
    case SouthSanFrancisco => "ssan"
    case UnionCity => "ucty"
    case WarmSpringsSouthFremont => "warm"
    case WalnutCreek => "wcrk"
    case WestDublin => "wdub"
    case WestOakland => "woak"
  }

  /** The full name of a station; every full name is longer than any abbreviation. */
  function ToFull(s: Station): (r: string)
    ensures |r| >= 5
  {
    match s
    case OaklandCityCenter12thSt => "12th St. Oakland City Center"
    case SFMission16thSt => "16th St. Mission (SF)"
    case Oakland19thSt => "19th St. Oakland"
    case SFMission24thSt => "24th St. Mission (SF)"
    case Ashby => "Ashby (Berkeley)"
    case Antioch => "Antioch"
    case BalboaPark => "Balboa Park (SF)"
    case BayFair => "Bay Fair (San Leandro)"
    case CastroValley => "Castro Valley"
    case CivicCenter => "Civic Center (SF)"
    case Coliseum => "Coliseum"
    case Colma => "Colma"
    case Concord => "Concord"
    case DalyCity => "Daly City"
    case DowntownBerkeley => "Downtown Berkeley"
    case DublinPleasanton => "Dublin/Pleasanton"
    case ElCerritoDelNorte => "El Cerrito del Norte"
    case ElCerritoPlaza => "El Cerrito Plaza"
    case Embarcadero => "Embarcadero (SF)"
    case Fremont => "Fremont"
    case Fruitvale => "Fruitvale (Oakland)"
    case GlenPark => "Glen Park (SF)"
    case Hayward => "Hayward"
    case Lafayette => "Lafayette"
    case LakeMerritt => "Lake Merritt (Oakland)"
    case MacArthur => "MacArthur (Oakland)"
    case Millbrae => "Millbrae"
    case MontgomerySt => "Montgomery St. (SF)"
    case NorthBerkeley => "North Berkeley"
    case NorthConcordMartinez => "North Concord/Martinez"
    case OaklandIntlAirport => "Oakland Int'l Airport"
    case Orinda => "Orinda"
    case PittsburgBayPoint => "Pittsburg/Bay Point"
    case PittsburgCenter => "Pittsburg Center"
    case PleasantHill => "Pleasant Hill"
    case PowellSt => "Powell St. (SF)"
    case Richmond => "Richmond"
    case Rockridge => "Rockridge (Oakland)"
    case SanBruno => "San Bruno"
    case SanFranciscoIntlAirport => "San Francisco Int'l Airport"
    case SanLeandro => "San Leandro"
    case SouthHayward => "South Hayward"
    case SouthSanFrancisco => "South San Francisco"
    case UnionCity => "Union City"
    case WarmSpringsSouthFremont => "Warm Springs/South Fremont"
    case WalnutCreek => "Walnut Creek"
    case WestDublin => "West Dublin"
    case WestOakland => "West Oakland"
  }

  // ----- the look-ups -----

  /** The station of the `i`-th arm of `from_abbr` and `from_full` (both list the stations in declaration order). */
  function Arm(i: nat): Station
    requires i < Count
  {
    match i
    case 0 => OaklandCityCenter12thSt
    case 1 => SFMission16thSt
    case 2 => Oakland19thSt
    case 3 => SFMission24thSt
    case 4 => Ashby
    case 5 => Antioch
    case 6 => BalboaPark
    case 7 => BayFair
    case 8 => CastroValley
    case 9 => CivicCenter
    case 10 => Coliseum
    case 11 => Colma
    case 12 => Concord
    case 13 => DalyCity
    case 14 => DowntownBerkeley
    case 15 => DublinPleasanton
    case 16 => ElCerritoDelNorte
    case 17 => ElCerritoPlaza
    case 18 => Embarcadero
    case 19 => Fremont
    case 20 => Fruitvale
    case 21 => GlenPark
    case 22 => Hayward
    case 23 => Lafayette
    case 24 => LakeMerritt
    case 25 => MacArthur
    case 26 => Millbrae
    case 27 => MontgomerySt
    case 28 => NorthBerkeley
    case 29 => NorthConcordMartinez
    case 30 => OaklandIntlAirport
    case 31 => Orinda
    case 32 => PittsburgBayPoint
    case 33 => PittsburgCenter
    case 34 => PleasantHill
    case 35 => PowellSt
    case 36 => Richmond
    case 37 => Rockridge
    case 38 => SanBruno
    case 39 => SanFranciscoIntlAirport
    case 40 => SanLeandro
    case 41 => SouthHayward
    case 42 => SouthSanFrancisco
    case 43 => UnionCity
    case 44 => WarmSpringsSouthFremont
    case 45 => WalnutCreek
    case 46 => WestDublin
    case _ => WestOakland
  }

  /** The arm that names a station: every station has one. */
  function ArmOf(s: Station): (i: nat)
    ensures i < Count && Arm(i) == s
  {
    match s
    case OaklandCityCenter12thSt => 0
    case SFMission16thSt => 1
    case Oakland19thSt => 2
    case SFMission24thSt => 3
    case Ashby => 4
    case Antioch => 5
    case BalboaPark => 6
    case BayFair => 7
    case CastroValley => 8
    case CivicCenter => 9
    case Coliseum => 10
    case Colma => 11
    case Concord => 12
    case DalyCity => 13
    case DowntownBerkeley => 14
    case DublinPleasanton => 15
    case ElCerritoDelNorte => 16
    case ElCerritoPlaza => 17
    case Embarcadero => 18
    case Fremont => 19
    case Fruitvale => 20
    case GlenPark => 21
    case Hayward => 22
    case Lafayette => 23
    case LakeMerritt => 24
    case MacArthur => 25
    case Millbrae => 26
    case MontgomerySt => 27
    case NorthBerkeley => 28
    case NorthConcordMartinez => 29
    case OaklandIntlAirport => 30
    case Orinda => 31
    case PittsburgBayPoint => 32
    case PittsburgCenter => 33
    case PleasantHill => 34
    case PowellSt => 35
    case Richmond => 36
    case Rockridge => 37
    case SanBruno => 38
    case SanFranciscoIntlAirport => 39
    case SanLeandro => 40
    case SouthHayward => 41
    case SouthSanFrancisco => 42
    case UnionCity => 43
    case WarmSpringsSouthFremont => 44
    case WalnutCreek => 45
    case WestDublin => 46
    case WestOakland => 47
  }

  /** The first arm at position `i` or later whose code is `key`. */
  function Find(i: nat, code: Station -> string, key: string): (r: Option<nat>)
    requires i <= Count
    ensures r.Some? ==> i <= r.value < Count && code(Arm(r.value)) == key
    ensures r.Some? ==> forall j :: i <= j < r.value ==> code(Arm(j)) != key
    ensures r.None? ==> forall j :: i <= j < Count ==> code(Arm(j)) != key
    decreases Count - i
  {
    if i == Count then None
    else if code(Arm(i)) == key then Some(i)
    else Find(i + 1, code, key)
  }

  /** A search that finds nothing means no station has that code. */
  lemma FindNoneNoStation(code: Station -> string, key: string, s: Station)
    requires Find(0, code, key).None?
    ensures code(s) != key
  {
    assert Arm(ArmOf(s)) == s;
  }

  /** `Station::from_abbr`: lower-case the input, then look it up among the abbreviations. */
  function FromAbbr(abbr: string): (r: Result<Station>)
    ensures r.Ok? ==> ToAbbr(r.value) == ToLower(abbr)
    ensures r.Err? ==> r.error == StationError && forall s :: ToAbbr(s) != ToLower(abbr)
  {
    match Find(0, ToAbbr, ToLower(abbr))
    case Some(i) => Ok(Arm(i))
    case None =>
      assert forall s :: ToAbbr(s) != ToLower(abbr) by {
        forall s ensures ToAbbr(s) != ToLower(abbr) { FindNoneNoStation(ToAbbr, ToLower(abbr), s); }
      }
      Err(StationError)
  }

  /** `Station::from_full`: an exact, case-sensitive look-up among the full names. */
  function FromFull(full: string): (r: Result<Station>)
    ensures r.Ok? ==> ToFull(r.value) == full
    ensures r.Err? ==> r.error == StationError && forall s :: ToFull(s) != full
  {
    match Find(0, ToFull, full)
    case Some(i) => Ok(Arm(i))
    case None =>
      assert forall s :: ToFull(s) != full by {
        forall s ensures ToFull(s) != full { FindNoneNoStation(ToFull, full, s); }
      }
      Err(StationError)
  }

  // ----- the abbreviations are pairwise distinct -----

  /** The stations listed by increasing abbreviation. */
  function AbbrRank(i: nat): Station
    requires i < Count
  {
    match i
    case 0 => OaklandCityCenter12thSt
    case 1 => SFMission16thSt
    case 2 => Oakland19thSt
    case 3 => SFMission24thSt
    case 4 => Antioch
    case 5 => Ashby
    case 6 => BalboaPark
    case 7 => BayFair
    case 8 => CastroValley
    case 9 => CivicCenter
    case 10 => Colma
    case 11 => Coliseum
    case 12 => Concord
    case 13 => DalyCity
    case 14 => DowntownBerkeley
    case 15 => ElCerritoDelNorte
    case 16 => DublinPleasanton
    case 17 => Embarcadero
    case 18 => Fremont
    case 19 => Fruitvale
    case 20 => GlenPark
    case 21 => Hayward
    case 22 => Lafayette
    case 23 => LakeMerritt
    case 24 => MacArthur
    case 25 => Millbrae
    case 26 => MontgomerySt
    case 27 => NorthBerkeley
    case 28 => NorthConcordMartinez
    case 29 => OaklandIntlAirport
    case 30 => Orinda
    case 31 => PittsburgCenter
    case 32 => PleasantHill
    case 33 => PittsburgBayPoint
    case 34 => ElCerritoPlaza
    case 35 => PowellSt
    case 36 => Richmond
    case 37 => Rockridge
    case 38 => SanLeandro
    case 39 => SanBruno
    case 40 => SanFranciscoIntlAirport
    case 41 => SouthHayward
    case 42 => SouthSanFrancisco
    case 43 => UnionCity
    case 44 => WarmSpringsSouthFremont
    case 45 => WalnutCreek
    case 46 => WestDublin
    case _ => WestOakland
  }

  /** The position of a station in `AbbrRank`: every station has one. */
  function AbbrPosition(s: Station): (i: nat)
    ensures i < Count && AbbrRank(i) == s
  {
    match s
    case OaklandCityCenter12thSt => 0
    case SFMission16thSt => 1
    case Oakland19thSt => 2
    case SFMission24thSt => 3
    case Ashby => 5
    case Antioch => 4
    case BalboaPark => 6
    case BayFair => 7
    case CastroValley => 8
    case CivicCenter => 9
    case Coliseum => 11
    case Colma => 10
    case Concord => 12
    case DalyCity => 13
    case DowntownBerkeley => 14
    case DublinPleasanton => 16
    case ElCerritoDelNorte => 15
    case ElCerritoPlaza => 34
    case Embarcadero => 17
    case Fremont => 18
    case Fruitvale => 19
    case GlenPark => 20
    case Hayward => 21
    case Lafayette => 22
    case LakeMerritt => 23
    case MacArthur => 24
    case Millbrae => 25
    case MontgomerySt => 26
    case NorthBerkeley => 27
    case NorthConcordMartinez => 28
    case OaklandIntlAirport => 29
    case Orinda => 30
    case PittsburgBayPoint => 33
    case PittsburgCenter => 31
    case PleasantHill => 32
    case PowellSt => 35
    case Richmond => 36
    case Rockridge => 37
    case SanBruno => 39
    case SanFranciscoIntlAirport => 40
    case SanLeandro => 38
    case SouthHayward => 41
    case SouthSanFrancisco => 42
    case UnionCity => 43
    case WarmSpringsSouthFremont => 44
    case WalnutCreek => 45
    case WestDublin => 46
    case WestOakland => 47
  }

  lemma AbbrStep0() ensures Lexicographic.Below(ToAbbr(AbbrRank(0)), ToAbbr(AbbrRank(1))) { }
  lemma AbbrStep1() ensures Lexicographic.Below(ToAbbr(AbbrRank(1)), ToAbbr(AbbrRank(2))) { }
  lemma AbbrStep2() ensures Lexicographic.Below(ToAbbr(AbbrRank(2)), ToAbbr(AbbrRank(3))) { }
  lemma AbbrStep3() ensures Lexicographic.Below(ToAbbr(AbbrRank(3)), ToAbbr(AbbrRank(4))) { }
  lemma AbbrStep4() ensures Lexicographic.Below(ToAbbr(AbbrRank(4)), ToAbbr(AbbrRank(5))) { }
  lemma AbbrStep5() ensures Lexicographic.Below(ToAbbr(AbbrRank(5)), ToAbbr(AbbrRank(6))) { }
  lemma AbbrStep6() ensures Lexicographic.Below(ToAbbr(AbbrRank(6)), ToAbbr(AbbrRank(7))) { }
  lemma AbbrStep7() ensures Lexicographic.Below(ToAbbr(AbbrRank(7)), ToAbbr(AbbrRank(8))) { }
  lemma AbbrStep8() ensures Lexicographic.Below(ToAbbr(AbbrRank(8)), ToAbbr(AbbrRank(9))) { }
  lemma AbbrStep9() ensures Lexicographic.Below(ToAbbr(AbbrRank(9)), ToAbbr(AbbrRank(10))) { }
  lemma AbbrStep10() ensures Lexicographic.Below(ToAbbr(AbbrRank(10)), ToAbbr(AbbrRank(11))) { }
  lemma AbbrStep11() ensures Lexicographic.Below(ToAbbr(AbbrRank(11)), ToAbbr(AbbrRank(12))) { }
  lemma AbbrStep12() ensures Lexicographic.Below(ToAbbr(AbbrRank(12)), ToAbbr(AbbrRank(13))) { }
  lemma AbbrStep13() ensures Lexicographic.Below(ToAbbr(AbbrRank(13)), ToAbbr(AbbrRank(14))) { }
  lemma AbbrStep14() ensures Lexicographic.Below(ToAbbr(AbbrRank(14)), ToAbbr(AbbrRank(15))) { }
  lemma AbbrStep15() ensures Lexicographic.Below(ToAbbr(AbbrRank(15)), ToAbbr(AbbrRank(16))) { }
  lemma AbbrStep16() ensures Lexicographic.Below(ToAbbr(AbbrRank(16)), ToAbbr(AbbrRank(17))) { }
  lemma AbbrStep17() ensures Lexicographic.Below(ToAbbr(AbbrRank(17)), ToAbbr(AbbrRank(18))) { }
  lemma AbbrStep18() ensures Lexicographic.Below(ToAbbr(AbbrRank(18)), ToAbbr(AbbrRank(19))) { }
  lemma AbbrStep19() ensures Lexicographic.Below(ToAbbr(AbbrRank(19)), ToAbbr(AbbrRank(20))) { }
  lemma AbbrStep20() ensures Lexicographic.Below(ToAbbr(AbbrRank(20)), ToAbbr(AbbrRank(21))) { }
  lemma AbbrStep21() ensures Lexicographic.Below(ToAbbr(AbbrRank(21)), ToAbbr(AbbrRank(22))) { }
  lemma AbbrStep22() ensures Lexicographic.Below(ToAbbr(AbbrRank(22)), ToAbbr(AbbrRank(23))) { }
  lemma AbbrStep23() ensures Lexicographic.Below(ToAbbr(AbbrRank(23)), ToAbbr(AbbrRank(24))) { }
  lemma AbbrStep24() ensures Lexicographic.Below(ToAbbr(AbbrRank(24)), ToAbbr(AbbrRank(25))) { }
  lemma AbbrStep25() ensures Lexicographic.Below(ToAbbr(AbbrRank(25)), ToAbbr(AbbrRank(26))) { }
  lemma AbbrStep26() ensures Lexicographic.Below(ToAbbr(AbbrRank(26)), ToAbbr(AbbrRank(27))) { }
  lemma AbbrStep27() ensures Lexicographic.Below(ToAbbr(AbbrRank(27)), ToAbbr(AbbrRank(28))) { }
  lemma AbbrStep28() ensures Lexicographic.Below(ToAbbr(AbbrRank(28)), ToAbbr(AbbrRank(29))) { }
  lemma AbbrStep29() ensures Lexicographic.Below(ToAbbr(AbbrRank(29)), ToAbbr(AbbrRank(30))) { }
  lemma AbbrStep30() ensures Lexicographic.Below(ToAbbr(AbbrRank(30)), ToAbbr(AbbrRank(31))) { }
  lemma AbbrStep31() ensures Lexicographic.Below(ToAbbr(AbbrRank(31)), ToAbbr(AbbrRank(32))) { }
  lemma AbbrStep32() ensures Lexicographic.Below(ToAbbr(AbbrRank(32)), ToAbbr(AbbrRank(33))) { }
  lemma AbbrStep33() ensures Lexicographic.Below(ToAbbr(AbbrRank(33)), ToAbbr(AbbrRank(34))) { }
  lemma AbbrStep34() ensures Lexicographic.Below(ToAbbr(AbbrRank(34)), ToAbbr(AbbrRank(35))) { }
  lemma AbbrStep35() ensures Lexicographic.Below(ToAbbr(AbbrRank(35)), ToAbbr(AbbrRank(36))) { }
  lemma AbbrStep36() ensures Lexicographic.Below(ToAbbr(AbbrRank(36)), ToAbbr(AbbrRank(37))) { }
  lemma AbbrStep37() ensures Lexicographic.Below(ToAbbr(AbbrRank(37)), ToAbbr(AbbrRank(38))) { }
  lemma AbbrStep38() ensures Lexicographic.Below(ToAbbr(AbbrRank(38)), ToAbbr(AbbrRank(39))) { }
  lemma AbbrStep39() ensures Lexicographic.Below(ToAbbr(AbbrRank(39)), ToAbbr(AbbrRank(40))) { }
  lemma AbbrStep40() ensures Lexicographic.Below(ToAbbr(AbbrRank(40)), ToAbbr(AbbrRank(41))) { }
  lemma AbbrStep41() ensures Lexicographic.Below(ToAbbr(AbbrRank(41)), ToAbbr(AbbrRank(42))) { }
  lemma AbbrStep42() ensures Lexicographic.Below(ToAbbr(AbbrRank(42)), ToAbbr(AbbrRank(43))) { }
  lemma AbbrStep43() ensures Lexicographic.Below(ToAbbr(AbbrRank(43)), ToAbbr(AbbrRank(44))) { }
  lemma AbbrStep44() ensures Lexicographic.Below(ToAbbr(AbbrRank(44)), ToAbbr(AbbrRank(45))) { }
  lemma AbbrStep45() ensures Lexicographic.Below(ToAbbr(AbbrRank(45)), ToAbbr(AbbrRank(46))) { }
  lemma AbbrStep46() ensures Lexicographic.Below(ToAbbr(AbbrRank(46)), ToAbbr(AbbrRank(47))) { }

  lemma AbbrIncreasingLow()
    ensures forall i: nat :: 0 <= i < 23 ==> Lexicographic.Below(ToAbbr(AbbrRank(i)), ToAbbr(AbbrRank(i + 1)))
  {
    forall i: nat | 0 <= i < 23
      ensures Lexicographic.Below(ToAbbr(AbbrRank(i)), ToAbbr(AbbrRank(i + 1)))
    {
      match i
      case 0 => AbbrStep0();
      case 1 => AbbrStep1();
      case 2 => AbbrStep2();
      case 3 => AbbrStep3();
      case 4 => AbbrStep4();
      case 5 => AbbrStep5();
      case 6 => AbbrStep6();
      case 7 => AbbrStep7();
      case 8 => AbbrStep8();
      case 9 => AbbrStep9();
      case 10 => AbbrStep10();
      case 11 => AbbrStep11();
      case 12 => AbbrStep12();
      case 13 => AbbrStep13();
      case 14 => AbbrStep14();
      case 15 => AbbrStep15();
      case 16 => AbbrStep16();
      case 17 => AbbrStep17();
      case 18 => AbbrStep18();
      case 19 => AbbrStep19();
      case 20 => AbbrStep20();
      case 21 => AbbrStep21();
      case _ => AbbrStep22();
    }
  }

  lemma AbbrIncreasingHigh()
    ensures forall i: nat :: 23 <= i < 47 ==> Lexicographic.Below(ToAbbr(AbbrRank(i)), ToAbbr(AbbrRank(i + 1)))
  {
    forall i: nat | 23 <= i < 47
      ensures Lexicographic.Below(ToAbbr(AbbrRank(i)), ToAbbr(AbbrRank(i + 1)))
    {
      match i
      case 23 => AbbrStep23();
      case 24 => AbbrStep24();
      case 25 => AbbrStep25();
      case 26 => AbbrStep26();
      case 27 => AbbrStep27();
      case 28 => AbbrStep28();
      case 29 => AbbrStep29();
      case 30 => AbbrStep30();
      case 31 => AbbrStep31();
      case 32 => AbbrStep32();
      case 33 => AbbrStep33();
      case 34 => AbbrStep34();
      case 35 => AbbrStep35();
      case 36 => AbbrStep36();
      case 37 => AbbrStep37();
      case 38 => AbbrStep38();
      case 39 => AbbrStep39();
      case 40 => AbbrStep40();
      case 41 => AbbrStep41();
      case 42 => AbbrStep42();
      case 43 => AbbrStep43();
      case 44 => AbbrStep44();
      case 45 => AbbrStep45();
      case _ => AbbrStep46();
    }
  }

  lemma AbbrIncreasing()
    ensures Lexicographic.Increasing(Count, AbbrRank, ToAbbr)
  {
    AbbrIncreasingLow();
    AbbrIncreasingHigh();
  }

  // ----- the full names are pairwise distinct -----

  /** The stations listed by increasing full name. */
  function FullRank(i: nat): Station
    requires i < Count
  {
    match i
    case 0 => OaklandCityCenter12thSt
    case 1 => SFMission16thSt
    case 2 => Oakland19thSt
    case 3 => SFMission24thSt
    case 4 => Antioch
    case 5 => Ashby
    case 6 => BalboaPark
    case 7 => BayFair
    case 8 => CastroValley
    case 9 => CivicCenter
    case 10 => Coliseum
    case 11 => Colma
    case 12 => Concord
    case 13 => DalyCity
    case 14 => DowntownBerkeley
    case 15 => DublinPleasanton
    case 16 => ElCerritoPlaza
    case 17 => ElCerritoDelNorte
    case 18 => Embarcadero
    case 19 => Fremont
    case 20 => Fruitvale
    case 21 => GlenPark
    case 22 => Hayward
    case 23 => Lafayette
    case 24 => LakeMerritt
    case 25 => MacArthur
    case 26 => Millbrae
    case 27 => MontgomerySt
    case 28 => NorthBerkeley
    case 29 => NorthConcordMartinez
    case 30 => OaklandIntlAirport
    case 31 => Orinda
    case 32 => PittsburgCenter
    case 33 => PittsburgBayPoint
    case 34 => PleasantHill
    case 35 => PowellSt
    case 36 => Richmond
    case 37 => Rockridge
    case 38 => SanBruno
    case 39 => SanFranciscoIntlAirport
    case 40 => SanLeandro
    case 41 => SouthHayward
    case 42 => SouthSanFrancisco
    case 43 => UnionCity
    case 44 => WalnutCreek
    case 45 => WarmSpringsSouthFremont
    case 46 => WestDublin
    case _ => WestOakland
  }

  /** The position of a station in `FullRank`: every station has one. */
  function FullPosition(s: Station): (i: nat)
    ensures i < Count && FullRank(i) == s
  {
    match s
    case OaklandCityCenter12thSt => 0
    case SFMission16thSt => 1
    case Oakland19thSt => 2
    case SFMission24thSt => 3
    case Ashby => 5
    case Antioch => 4
    case BalboaPark => 6
    case BayFair => 7
    case CastroValley => 8
    case CivicCenter => 9
    case Coliseum => 10
    case Colma => 11
    case Concord => 12
    case DalyCity => 13
    case DowntownBerkeley => 14
    case DublinPleasanton => 15
    case ElCerritoDelNorte => 17
    case ElCerritoPlaza => 16
    case Embarcadero => 18
    case Fremont => 19
    case Fruitvale => 20
    case GlenPark => 21
    case Hayward => 22
    case Lafayette => 23
    case LakeMerritt => 24
    case MacArthur => 25
    case Millbrae => 26
    case MontgomerySt => 27
    case NorthBerkeley => 28
    case NorthConcordMartinez => 29
    case OaklandIntlAirport => 30
    case Orinda => 31
    case PittsburgBayPoint => 33
    case PittsburgCenter => 32
    case PleasantHill => 34
    case PowellSt => 35
    case Richmond => 36
    case Rockridge => 37
    case SanBruno => 38
    case SanFranciscoIntlAirport => 39
    case SanLeandro => 40
    case SouthHayward => 41
    case SouthSanFrancisco => 42
    case UnionCity => 43
    case WarmSpringsSouthFremont => 45
    case WalnutCreek => 44
    case WestDublin => 46
    case WestOakland => 47
  }

  lemma FullStep0() ensures Lexicographic.Below(ToFull(FullRank(0)), ToFull(FullRank(1))) { }
  lemma FullStep1() ensures Lexicographic.Below(ToFull(FullRank(1)), ToFull(FullRank(2))) { }
  lemma FullStep2() ensures Lexicographic.Below(ToFull(FullRank(2)), ToFull(FullRank(3))) { }
  lemma FullStep3() ensures Lexicographic.Below(ToFull(FullRank(3)), ToFull(FullRank(4))) { }
  lemma FullStep4() ensures Lexicographic.Below(ToFull(FullRank(4)), ToFull(FullRank(5))) { }
  lemma FullStep5() ensures Lexicographic.Below(ToFull(FullRank(5)), ToFull(FullRank(6))) { }
  lemma FullStep6() ensures Lexicographic.Below(ToFull(FullRank(6)), ToFull(FullRank(7))) { }
  lemma FullStep7() ensures Lexicographic.Below(ToFull(FullRank(7)), ToFull(FullRank(8))) { }
  lemma FullStep8() ensures Lexicographic.Below(ToFull(FullRank(8)), ToFull(FullRank(9))) { }
  lemma FullStep9() ensures Lexicographic.Below(ToFull(FullRank(9)), ToFull(FullRank(10))) { }
  lemma FullStep10() ensures Lexicographic.Below(ToFull(FullRank(10)), ToFull(FullRank(11))) { }
  lemma FullStep11() ensures Lexicographic.Below(ToFull(FullRank(11)), ToFull(FullRank(12))) { }
  lemma FullStep12() ensures Lexicographic.Below(ToFull(FullRank(12)), ToFull(FullRank(13))) { }
  lemma FullStep13() ensures Lexicographic.Below(ToFull(FullRank(13)), ToFull(FullRank(14))) { }
  lemma FullStep14() ensures Lexicographic.Below(ToFull(FullRank(14)), ToFull(FullRank(15))) { }
  lemma FullStep15() ensures Lexicographic.Below(ToFull(FullRank(15)), ToFull(FullRank(16))) { }
  lemma FullStep16() ensures Lexicographic.Below(ToFull(FullRank(16)), ToFull(FullRank(17))) { }
  lemma FullStep17() ensures Lexicographic.Below(ToFull(FullRank(17)), ToFull(FullRank(18))) { }
  lemma FullStep18() ensures Lexicographic.Below(ToFull(FullRank(18)), ToFull(FullRank(19))) { }
  lemma FullStep19() ensures Lexicographic.Below(ToFull(FullRank(19)), ToFull(FullRank(20))) { }
  lemma FullStep20() ensures Lexicographic.Below(ToFull(FullRank(20)), ToFull(FullRank(21))) { }
  lemma FullStep21() ensures Lexicographic.Below(ToFull(FullRank(21)), ToFull(FullRank(22))) { }
  lemma FullStep22() ensures Lexicographic.Below(ToFull(FullRank(22)), ToFull(FullRank(23))) { }
  lemma FullStep23() ensures Lexicographic.Below(ToFull(FullRank(23)), ToFull(FullRank(24))) { }
  lemma FullStep24() ensures Lexicographic.Below(ToFull(FullRank(24)), ToFull(FullRank(25))) { }
  lemma FullStep25() ensures Lexicographic.Below(ToFull(FullRank(25)), ToFull(FullRank(26))) { }
  lemma FullStep26() ensures Lexicographic.Below(ToFull(FullRank(26)), ToFull(FullRank(27))) { }
  lemma FullStep27() ensures Lexicographic.Below(ToFull(FullRank(27)), ToFull(FullRank(28))) { }
  lemma FullStep28() ensures Lexicographic.Below(ToFull(FullRank(28)), ToFull(FullRank(29))) { }
  lemma FullStep29() ensures Lexicographic.Below(ToFull(FullRank(29)), ToFull(FullRank(30))) { }
  lemma FullStep30() ensures Lexicographic.Below(ToFull(FullRank(30)), ToFull(FullRank(31))) { }
  lemma FullStep31() ensures Lexicographic.Below(ToFull(FullRank(31)), ToFull(FullRank(32))) { }
  lemma FullStep32() ensures Lexicographic.Below(ToFull(FullRank(32)), ToFull(FullRank(33))) { }
  lemma FullStep33() ensures Lexicographic.Below(ToFull(FullRank(33)), ToFull(FullRank(34))) { }
  lemma FullStep34() ensures Lexicographic.Below(ToFull(FullRank(34)), ToFull(FullRank(35))) { }
  lemma FullStep35() ensures Lexicographic.Below(ToFull(FullRank(35)), ToFull(FullRank(36))) { }
  lemma FullStep36() ensures Lexicographic.Below(ToFull(FullRank(36)), ToFull(FullRank(37))) { }
  lemma FullStep37() ensures Lexicographic.Below(ToFull(FullRank(37)), ToFull(FullRank(38))) { }
  lemma FullStep38() ensures Lexicographic.Below(ToFull(FullRank(38)), ToFull(FullRank(39))) { }
  lemma FullStep39() ensures Lexicographic.Below(ToFull(FullRank(39)), ToFull(FullRank(40))) { }
  lemma FullStep40() ensures Lexicographic.Below(ToFull(FullRank(40)), ToFull(FullRank(41))) { }
  lemma FullStep41() ensures Lexicographic.Below(ToFull(FullRank(41)), ToFull(FullRank(42))) { }
  lemma FullStep42() ensures Lexicographic.Below(ToFull(FullRank(42)), ToFull(FullRank(43))) { }
  lemma FullStep43() ensures Lexicographic.Below(ToFull(FullRank(43)), ToFull(FullRank(44))) { }
  lemma FullStep44() ensures Lexicographic.Below(ToFull(FullRank(44)), ToFull(FullRank(45))) { }
  lemma FullStep45() ensures Lexicographic.Below(ToFull(FullRank(45)), ToFull(FullRank(46))) { }
  lemma FullStep46() ensures Lexicographic.Below(ToFull(FullRank(46)), ToFull(FullRank(47))) { }

  lemma FullIncreasingLow()
    ensures forall i: nat :: 0 <= i < 23 ==> Lexicographic.Below(ToFull(FullRank(i)), ToFull(FullRank(i + 1)))
  {
    forall i: nat | 0 <= i < 23
      ensures Lexicographic.Below(ToFull(FullRank(i)), ToFull(FullRank(i + 1)))
    {
      match i
      case 0 => FullStep0();
      case 1 => FullStep1();
      case 2 => FullStep2();
      case 3 => FullStep3();
      case 4 => FullStep4();
      case 5 => FullStep5();
      case 6 => FullStep6();
      case 7 => FullStep7();
      case 8 => FullStep8();
      case 9 => FullStep9();
      case 10 => FullStep10();
      case 11 => FullStep11();
      case 12 => FullStep12();
      case 13 => FullStep13();
      case 14 => FullStep14();
      case 15 => FullStep15();
      case 16 => FullStep16();
      case 17 => FullStep17();
      case 18 => FullStep18();
      case 19 => FullStep19();
      case 20 => FullStep20();
      case 21 => FullStep21();
      case _ => FullStep22();
    }
  }

  lemma FullIncreasingHigh()
    ensures forall i: nat :: 23 <= i < 47 ==> Lexicographic.Below(ToFull(FullRank(i)), ToFull(FullRank(i + 1)))
  {
    forall i: nat | 23 <= i < 47
      ensures Lexicographic.Below(ToFull(FullRank(i)), ToFull(FullRank(i + 1)))
    {
      match i
      case 23 => FullStep23();
      case 24 => FullStep24();
      case 25 => FullStep25();
      case 26 => FullStep26();
      case 27 => FullStep27();
      case 28 => FullStep28();
      case 29 => FullStep29();
      case 30 => FullStep30();
      case 31 => FullStep31();
      case 32 => FullStep32();
      case 33 => FullStep33();
      case 34 => FullStep34();
      case 35 => FullStep35();
      case 36 => FullStep36();
      case 37 => FullStep37();
      case 38 => FullStep38();
      case 39 => FullStep39();
      case 40 => FullStep40();
      case 41 => FullStep41();
      case 42 => FullStep42();
      case 43 => FullStep43();
      case 44 => FullStep44();
      case 45 => FullStep45();
      case _ => FullStep46();
    }
  }

  lemma FullIncreasing()
    ensures Lexicographic.Increasing(Count, FullRank, ToFull)
  {
    FullIncreasingLow();
    FullIncreasingHigh();
  }

  /** The 48 abbreviations are pairwise distinct. */
  lemma ToAbbrInjective(s1: Station, s2: Station)
    ensures ToAbbr(s1) == ToAbbr(s2) ==> s1 == s2
  {
    AbbrIncreasing();
    Lexicographic.IncreasingInjective(Count, AbbrRank, ToAbbr, AbbrPosition(s1), AbbrPosition(s2));
  }

  /** The 48 full names are pairwise distinct. */
  lemma ToFullInjective(s1: Station, s2: Station)
    ensures ToFull(s1) == ToFull(s2) ==> s1 == s2
  {
    FullIncreasing();
    Lexicographic.IncreasingInjective(Count, FullRank, ToFull, FullPosition(s1), FullPosition(s2));
  }


  /** `TryFrom<String>`: the abbreviation look-up, and the full-name look-up when that fails.
      A result names a station whose abbreviation (in any letter case) or exact full
      name is the input; an error means there is none. */
  function TryFrom(str: string): (r: Result<Station>)
    ensures r.Ok? ==> ToAbbr(r.value) == ToLower(str) || ToFull(r.value) == str
    ensures r.Err? ==> r.error == StationError
    ensures r.Err? ==> forall s :: ToAbbr(s) != ToLower(str) && ToFull(s) != str
  {
    var abbr := FromAbbr(str);
    if abbr.Ok? then Ok(abbr.value)
    else
      var full := FromFull(str);
      if full.Ok? then Ok(full.value)
      else Err(StationError)
  }

  /** A string names at most one station: whichever station's abbreviation or full
      name it is, that is the station `TryFrom` returns. */
  lemma TryFromUnique(str: string, s: Station)
    requires ToAbbr(s) == ToLower(str) || ToFull(s) == str
    ensures TryFrom(str) == Ok(s)
  {
    if ToAbbr(s) == ToLower(str) {
      TryFromAbbr(str, s);
    } else {
      TryFromFull(str, s);
    }
  }

  lemma TryFromAbbr(str: string, s: Station)
    requires ToAbbr(s) == ToLower(str)
    ensures TryFrom(str) == Ok(s)
  {
    FromAbbrAnyCase(str, s);
  }

  /** An abbreviation in any letter case names its station. */
  lemma FromAbbrAnyCase(str: string, s: Station)
    requires ToAbbr(s) == ToLower(str)
    ensures FromAbbr(str) == Ok(s)
  {
    var a := FromAbbr(str);
    assert a.Ok?;
    ToAbbrInjective(a.value, s);
  }

  /** No string longer than four characters is an abbreviation. */
  lemma LongIsNoAbbr(str: string)
    requires |str| > 4
    ensures FromAbbr(str).Err?
  {
    assert |ToLower(str)| == |str|;
  }

  /** A full name is never also an abbreviation: it is longer than four characters. */
  lemma TryFromFull(str: string, s: Station)
    requires ToFull(s) == str
    ensures TryFrom(str) == Ok(s)
  {
    LongIsNoAbbr(str);
    FullRoundTrip(s);
  }

  /** Lower-casing leaves an abbreviation unchanged. */
  lemma AbbrHasNoUpper(s: Station)
    ensures ToLower(ToAbbr(s)) == ToAbbr(s)
  {
    var abbr := ToAbbr(s);
    assert NoUpper(abbr) by {
      assert forall i :: 0 <= i < |abbr| ==> !IsUpper(abbr[i]);
    }
    ToLowerFixed(abbr);
  }

  /** `Serialize`: the abbreviation. */
  function Serialize(s: Station): (v: Value)
    ensures v.Str? && v.s == ToAbbr(s)
  {
    Str(ToAbbr(s))
  }

  /** `Deserialize`: a string, read with `TryFrom`. */
  function Deserialize(v: Value): (r: Result<Station>)
    ensures r.Ok? ==> v.Str? && (ToAbbr(r.value) == ToLower(v.s) || ToFull(r.value) == v.s)
    ensures v.Str? ==> r == TryFrom(v.s)
  {
    var str :- DeserializeString(v);
    TryFrom(str)
  }

  /** Every abbreviation reads back as its station. */
  lemma AbbrRoundTrip(s: Station)
    ensures FromAbbr(ToAbbr(s)) == Ok(s)
  {
    AbbrHasNoUpper(s);
    var r := FromAbbr(ToAbbr(s));
    if r.Ok? { ToAbbrInjective(r.value, s); }
  }

  /** Every full name reads back as its station. */
  lemma FullRoundTrip(s: Station)
    ensures FromFull(ToFull(s)) == Ok(s)
  {
    var r := FromFull(ToFull(s));
    if r.Ok? { ToFullInjective(r.value, s); }
  }

  /** Any letter case of an abbreviation names the same station. */
  lemma FromAbbrIgnoresCase(abbr: string)
    ensures FromAbbr(ToUpper(abbr)) == FromAbbr(abbr)
    ensures FromAbbr(ToLower(abbr)) == FromAbbr(abbr)
  {
    ToLowerOfToUpper(abbr);
    ToLowerIdempotent(abbr);
  }

  lemma UpperAbbrRoundTrip(s: Station)
    ensures FromAbbr(ToUpper(ToAbbr(s))) == Ok(s)
  {
    FromAbbrIgnoresCase(ToAbbr(s));
    AbbrRoundTrip(s);
  }

  /** The abbreviation may be given in any letter case. */
  lemma FromAbbrExamples()
    ensures FromAbbr("ANTC") == Ok(Antioch) && FromAbbr("AnTc") == Ok(Antioch)
  {
    assert ToLower("ANTC") == "antc";
    FromAbbrAnyCase("ANTC", Antioch);
    assert ToLower("AnTc") == "antc";
    FromAbbrAnyCase("AnTc", Antioch);
  }

  /** A full name is matched exactly. */
  lemma FromFullExample()
    ensures FromFull("Antioch") == Ok(Antioch)
  {
    FullRoundTrip(Antioch);
  }

  /** No string is both an abbreviation (in any case) and a full name. */
  lemma AbbrAndFullDisjoint(str: string, s1: Station, s2: Station)
    ensures !(ToAbbr(s1) == ToLower(str) && ToFull(s2) == str)
  {
  }

  /** `TryFrom` accepts every abbreviation and every full name. */
  lemma TryFromRoundTrip(s: Station)
    ensures TryFrom(ToAbbr(s)) == Ok(s)
    ensures TryFrom(ToFull(s)) == Ok(s)
  {
    AbbrHasNoUpper(s);
    TryFromUnique(ToAbbr(s), s);
    TryFromUnique(ToFull(s), s);
  }

  lemma SerdeRoundTrip(s: Station)
    ensures Deserialize(Serialize(s)) == Ok(s)
  {
    TryFromRoundTrip(s);
  }

  /** An abbreviation holds none of the characters that delimit a URL query. */
  lemma AbbrIsQuerySafe(s: Station)
    ensures '&' !in ToAbbr(s) && '=' !in ToAbbr(s) && '?' !in ToAbbr(s)
  {
    var abbr := ToAbbr(s);
    assert forall i :: 0 <= i < |abbr| ==> abbr[i] != '&' && abbr[i] != '=' && abbr[i] != '?';
  }
}
