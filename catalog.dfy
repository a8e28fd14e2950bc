/** The seed data of constants.ts: the fifty listed complexes (`COINS`) and
    the static order book (`MOCK_ORDERBOOK`), with the facts about them that
    the engine and the views rely on at start. */
module Catalog {
  import opened Types
  import opened Market
  import opened OrderBook

  /** constants.ts:6-18, the first group, listed without a region heading:
      mostly Seoul, with TRUST from Busan and MMT and FLUID from Gyeonggi. */
  const Featured: seq<Coin> := [
    Coin("XRP", "XRP", "Ripple", "잠실래미안아이파크", "서울시 송파구 신천동", 2750000000.0, 2720000000.0, 1.10, 1018177.0),
    Coin("BTC", "BTC", "Bitcoin", "헬리오시티", "서울시 송파구 가락동", 2150000000.0, 2180000000.0, -1.38, 995843.0),
    Coin("TRUST", "TRUST", "Intuition", "두산위브더제니스오션시티", "부산시 남구 우암동", 580000000.0, 565000000.0, 2.65, 761073.0),
    Coin("ETH", "ETH", "Ethereum", "성산시영", "서울시 마포구 성산동", 1180000000.0, 1190000000.0, -0.84, 527618.0),
    Coin("MMT", "MMT", "Momentum", "광명자이더샵포레나", "경기도 광명시 광명동", 1050000000.0, 1020000000.0, 2.94, 486136.0),
    Coin("USDT", "USDT", "Tether", "남산타운", "서울시 중구 신당동", 1520000000.0, 1525000000.0, -0.33, 388238.0),
    Coin("SOL", "SOL", "Solana", "올림픽파크포레온", "서울시 강동구 둔촌동", 2450000000.0, 2380000000.0, 2.94, 305632.0),
    Coin("DOGE", "DOGE", "Dogecoin", "파크리오", "서울시 송파구 신천동", 2250000000.0, 2280000000.0, -1.32, 169402.0),
    Coin("FLUID", "FLUID", "Fluid", "래미안안양메가트리아", "경기도 안양시 만안구 안양동", 920000000.0, 910000000.0, 1.10, 115840.0),
    Coin("OG", "OG", "ZeroG", "청담르엘", "서울시 강남구 청담동", 5800000000.0, 5650000000.0, 2.65, 102864.0),
    Coin("TMG", "TMG", "Trimage", "트리마제", "서울시 성동구 성수동1가", 3950000000.0, 3900000000.0, 1.28, 45020.0),
    Coin("RONE", "RONE", "OneBailey", "래미안원베일리", "서울시 서초구 반포동", 4950000000.0, 4850000000.0, 2.06, 32010.0),
    Coin("GDK", "GDK", "Gracium", "고덕그라시움", "서울시 강동구 고덕동", 1680000000.0, 1700000000.0, -1.18, 89000.0)
  ]

  /** constants.ts:21-28, the Gyeonggi group. */
  const Gyeonggi: seq<Coin> := [
    Coin("CSZ", "CSZ", "CheolsanXi", "철산자이더헤리티지", "경기도 광명시 철산동", 1150000000.0, 1120000000.0, 2.68, 89000.0),
    Coin("BJE", "BJE", "BokjeongEpit", "복정역에피트", "경기도 성남시 수정구 복정동", 980000000.0, 1000000000.0, -2.00, 45000.0),
    Coin("GCI", "GCI", "GwangmyeongCentral", "광명센트럴아이파크", "경기도 광명시 광명동", 1080000000.0, 1080000000.0, 0.00, 32000.0),
    Coin("SFP", "SFP", "SanseongForestia", "산성역포레스티아", "경기도 성남시 수정구 신흥동", 1120000000.0, 1090000000.0, 2.75, 67000.0),
    Coin("NBR", "NBR", "NamyangjuByeollae", "남양주별내리슈빌", "경기도 남양주시 별내동", 780000000.0, 790000000.0, -1.27, 21000.0),
    Coin("CSB", "CSB", "CheolsanXiBriere", "철산자이브리에르", "경기도 광명시 철산동", 980000000.0, 950000000.0, 3.16, 54000.0),
    Coin("PAF", "PAF", "PyeongchonIrvine", "평촌어바인퍼스트", "경기도 안양시 동안구 호계동", 860000000.0, 840000000.0, 2.38, 41000.0),
    Coin("SRW", "SRW", "SangnokWoosung", "상록우성", "경기도 성남시 분당구 정자동", 1450000000.0, 1500000000.0, -3.33, 98000.0)
  ]

  /** constants.ts:31-39, the Busan group. */
  const Busan: seq<Coin> := [
    Coin("LCNT", "LCNT", "LayCounty", "레이카운티", "부산시 연제구 거제동", 820000000.0, 810000000.0, 1.23, 45000.0),
    Coin("DRIP", "DRIP", "DongnaeRaemian", "동래래미안아이파크", "부산시 동래구 온천동", 920000000.0, 930000000.0, -1.08, 32000.0),
    Coin("DLCL", "DLCL", "DaeyeonLotte", "대연롯데캐슬레전드", "부산시 남구 대연동", 750000000.0, 750000000.0, 0.00, 28000.0),
    Coin("HIPK", "HIPK", "HaeundaeIpark", "해운대아이파크(주상복합)", "부산시 해운대구 우동", 1350000000.0, 1300000000.0, 3.85, 67000.0),
    Coin("HHSW", "HHSW", "HaeundaeHillstate", "해운대힐스테이트위브", "부산시 해운대구 중동", 980000000.0, 1000000000.0, -2.00, 15000.0),
    Coin("DDIL", "DDIL", "DaeyeonDIEL", "대연디아이엘", "부산시 남구 대연동", 910000000.0, 900000000.0, 1.11, 54000.0),
    Coin("RMJJ", "RMJJ", "RaemianJangjeon", "래미안장전", "부산시 금정구 장전동", 820000000.0, 810000000.0, 1.23, 21000.0),
    Coin("SIBT", "SIBT", "SamikBeach", "삼익비치타운", "부산시 수영구 남천동", 1580000000.0, 1530000000.0, 3.27, 89000.0),
    Coin("TSCP", "TSCP", "TheSharpCentum", "더샵센텀파크1차", "부산시 해운대구 재송동", 1100000000.0, 1120000000.0, -1.79, 41000.0)
  ]

  /** constants.ts:42-51, the Incheon group. */
  const Incheon: seq<Coin> := [
    Coin("HL4", "HL4", "HillstateLake4", "힐스테이트레이크송도4차", "인천시 연수구 송도동", 780000000.0, 760000000.0, 2.63, 56000.0),
    Coin("SCC", "SCC", "SongdoCentralCity", "송도더샵센트럴시티", "인천시 연수구 송도동", 850000000.0, 850000000.0, 0.00, 67000.0),
    Coin("SMB", "SMB", "SongdoMarinaBay", "더샵송도마리나베이", "인천시 연수구 송도동", 910000000.0, 920000000.0, -1.09, 43000.0),
    Coin("EPS", "EPS", "ePyeonhansesangSongdo", "e편한세상송도", "인천시 연수구 송도동", 680000000.0, 660000000.0, 3.03, 38000.0),
    Coin("EBG", "EBG", "ePyeonhansesangBupyeong", "e편한세상부평그랑힐스", "인천시 부평구 청천동", 580000000.0, 590000000.0, -1.69, 29000.0),
    Coin("GHL", "GHL", "GuwolHillstateLotte", "구월힐스테이트,롯데캐슬골드1단지", "인천시 남동구 구월동", 490000000.0, 480000000.0, 2.08, 22000.0),
    Coin("SZS", "SZS", "SongdoXiTheStar", "송도자이더스타", "인천시 연수구 송도동", 1020000000.0, 1000000000.0, 2.00, 75000.0),
    Coin("HST", "HST", "HillstateSongdoTerrace", "힐스테이트송도더테라스", "인천시 연수구 송도동", 880000000.0, 890000000.0, -1.12, 51000.0),
    Coin("SSV", "SSV", "SongdoSKView", "송도SK뷰", "인천시 연수구 송도동", 790000000.0, 800000000.0, -1.25, 46000.0),
    Coin("ISV", "ISV", "IncheonSKSkyView", "인천SK스카이뷰", "인천시 미추홀구 용현동", 620000000.0, 610000000.0, 1.64, 33000.0)
  ]

  /** constants.ts:54-63, the Daejeon group. */
  const Daejeon: seq<Coin> := [
    Coin("DTSE", "DTSE", "DunsanTheSharpElif", "둔산더샵엘리프", "대전시 서구 용문동", 820000000.0, 800000000.0, 2.50, 34000.0),
    Coin("CRV", "CRV", "Clover", "크로바", "대전시 서구 둔산동", 1450000000.0, 1480000000.0, -2.03, 89000.0),
    Coin("DZI", "DZI", "DunsanXiIpark", "둔산자이아이파크", "대전시 서구 탄방동", 980000000.0, 980000000.0, 0.00, 56000.0),
    Coin("DIC2", "DIC2", "DaejeonIparkCity2", "대전아이파크시티2단지", "대전시 유성구 상대동", 1120000000.0, 1100000000.0, 1.82, 67000.0),
    Coin("TCLF", "TCLF", "TripleCityLakeFore", "트리풀시티레이크포레", "대전시 서구 도안동", 780000000.0, 790000000.0, -1.27, 28000.0),
    Coin("EXP", "EXP", "Expo", "엑스포", "대전시 유성구 전민동", 650000000.0, 620000000.0, 4.84, 12000.0),
    Coin("DEP", "DEP", "DomaePyeonhansesang", "도마e편한세상포레나", "대전시 서구 도마동", 540000000.0, 550000000.0, -1.82, 15000.0),
    Coin("DUT", "DUT", "DoanWoomiLynn", "도안우미린트리쉐이드", "대전시 유성구 용계동", 720000000.0, 710000000.0, 1.41, 22000.0),
    Coin("DRZP", "DRZP", "DoryongXiRapique", "도룡자이라피크", "대전시 유성구 도룡동", 1050000000.0, 1080000000.0, -2.78, 41000.0),
    Coin("SSV2", "SSV2", "SinheungSKView", "신흥SK뷰", "대전시 동구 신흥동", 480000000.0, 460000000.0, 4.35, 11000.0)
  ]

  /** `COINS` (constants.ts:4-64), in list order. */
  const Coins: seq<Coin> := Featured + Gyeonggi + Busan + Incheon + Daejeon

  /** The position of each listed id, and -1 for any other string: a witness
      that the ids are pairwise different. */
  ghost function IndexOf(id: string): int
  {
    if |id| == 3 && id[0] == 'X' && id[1] == 'R' && id[2] == 'P' then 0
    else if |id| == 3 && id[0] == 'B' && id[1] == 'T' && id[2] == 'C' then 1
    else if |id| == 5 && id[0] == 'T' && id[1] == 'R' && id[2] == 'U' && id[3] == 'S' && id[4] == 'T' then 2
    else if |id| == 3 && id[0] == 'E' && id[1] == 'T' && id[2] == 'H' then 3
    else if |id| == 3 && id[0] == 'M' && id[1] == 'M' && id[2] == 'T' then 4
    else if |id| == 4 && id[0] == 'U' && id[1] == 'S' && id[2] == 'D' && id[3] == 'T' then 5
    else if |id| == 3 && id[0] == 'S' && id[1] == 'O' && id[2] == 'L' then 6
    else if |id| == 4 && id[0] == 'D' && id[1] == 'O' && id[2] == 'G' && id[3] == 'E' then 7
    else if |id| == 5 && id[0] == 'F' && id[1] == 'L' && id[2] == 'U' && id[3] == 'I' && id[4] == 'D' then 8
    else if |id| == 2 && id[0] == 'O' && id[1] == 'G' then 9
    else if |id| == 3 && id[0] == 'T' && id[1] == 'M' && id[2] == 'G' then 10
    else if |id| == 4 && id[0] == 'R' && id[1] == 'O' && id[2] == 'N' && id[3] == 'E' then 11
    else if |id| == 3 && id[0] == 'G' && id[1] == 'D' && id[2] == 'K' then 12
    else if |id| == 3 && id[0] == 'C' && id[1] == 'S' && id[2] == 'Z' then 13
    else if |id| == 3 && id[0] == 'B' && id[1] == 'J' && id[2] == 'E' then 14
    else if |id| == 3 && id[0] == 'G' && id[1] == 'C' && id[2] == 'I' then 15
    else if |id| == 3 && id[0] == 'S' && id[1] == 'F' && id[2] == 'P' then 16
    else if |id| == 3 && id[0] == 'N' && id[1] == 'B' && id[2] == 'R' then 17
    else if |id| == 3 && id[0] == 'C' && id[1] == 'S' && id[2] == 'B' then 18
    else if |id| == 3 && id[0] == 'P' && id[1] == 'A' && id[2] == 'F' then 19
    else if |id| == 3 && id[0] == 'S' && id[1] == 'R' && id[2] == 'W' then 20
    else if |id| == 4 && id[0] == 'L' && id[1] == 'C' && id[2] == 'N' && id[3] == 'T' then 21
    else if |id| == 4 && id[0] == 'D' && id[1] == 'R' && id[2] == 'I' && id[3] == 'P' then 22
    else if |id| == 4 && id[0] == 'D' && id[1] == 'L' && id[2] == 'C' && id[3] == 'L' then 23
    else if |id| == 4 && id[0] == 'H' && id[1] == 'I' && id[2] == 'P' && id[3] == 'K' then 24
    else if |id| == 4 && id[0] == 'H' && id[1] == 'H' && id[2] == 'S' && id[3] == 'W' then 25
    else if |id| == 4 && id[0] == 'D' && id[1] == 'D' && id[2] == 'I' && id[3] == 'L' then 26
    else if |id| == 4 && id[0] == 'R' && id[1] == 'M' && id[2] == 'J' && id[3] == 'J' then 27
    else if |id| == 4 && id[0] == 'S' && id[1] == 'I' && id[2] == 'B' && id[3] == 'T' then 28
    else if |id| == 4 && id[0] == 'T' && id[1] == 'S' && id[2] == 'C' && id[3] == 'P' then 29
    else if |id| == 3 && id[0] == 'H' && id[1] == 'L' && id[2] == '4' then 30
    else if |id| == 3 && id[0] == 'S' && id[1] == 'C' && id[2] == 'C' then 31
    else if |id| == 3 && id[0] == 'S' && id[1] == 'M' && id[2] == 'B' then 32
    else if |id| == 3 && id[0] == 'E' && id[1] == 'P' && id[2] == 'S' then 33
    else if |id| == 3 && id[0] == 'E' && id[1] == 'B' && id[2] == 'G' then 34
    else if |id| == 3 && id[0] == 'G' && id[1] == 'H' && id[2] == 'L' then 35
    else if |id| == 3 && id[0] == 'S' && id[1] == 'Z' && id[2] == 'S' then 36
    else if |id| == 3 && id[0] == 'H' && id[1] == 'S' && id[2] == 'T' then 37
    else if |id| == 3 && id[0] == 'S' && id[1] == 'S' && id[2] == 'V' then 38
    else if |id| == 3 && id[0] == 'I' && id[1] == 'S' && id[2] == 'V' then 39
    else if |id| == 4 && id[0] == 'D' && id[1] == 'T' && id[2] == 'S' && id[3] == 'E' then 40
    else if |id| == 3 && id[0] == 'C' && id[1] == 'R' && id[2] == 'V' then 41
    else if |id| == 3 && id[0] == 'D' && id[1] == 'Z' && id[2] == 'I' then 42
    else if |id| == 4 && id[0] == 'D' && id[1] == 'I' && id[2] == 'C' && id[3] == '2' then 43
    else if |id| == 4 && id[0] == 'T' && id[1] == 'C' && id[2] == 'L' && id[3] == 'F' then 44
    else if |id| == 3 && id[0] == 'E' && id[1] == 'X' && id[2] == 'P' then 45
    else if |id| == 3 && id[0] == 'D' && id[1] == 'E' && id[2] == 'P' then 46
    else if |id| == 3 && id[0] == 'D' && id[1] == 'U' && id[2] == 'T' then 47
    else if |id| == 4 && id[0] == 'D' && id[1] == 'R' && id[2] == 'Z' && id[3] == 'P' then 48
    else if |id| == 4 && id[0] == 'S' && id[1] == 'S' && id[2] == 'V' && id[3] == '2' then 49
    else -1
  }

  /** What each listed coin satisfies: its symbol is its id; its prices are
      whole numbers of won, the current one at least a million (the first
      rounding tier of App.tsx:34-35 and the 1,000 tick of
      components/TradingView.tsx:103); its baseline is positive (so every
      change-rate division is defined); and its stated rate has the sign of
      the move from the baseline and is the change-rate formula to two
      decimals. */
  predicate Consistent(c: Coin)
  {
    c.symbol == c.id && c.prevPrice > 0.0 && c.price >= 1000000.0 &&
    IsIntegral(c.price / 100.0) && IsIntegral(c.price) && IsIntegral(c.prevPrice) &&
    SignOf(c.changeRate) == DirectionOf(c.price, c.prevPrice) &&
    -0.005 < c.changeRate - ChangeRate(c.price, c.prevPrice) < 0.005
  }

  lemma FeaturedFacts()
    ensures forall k :: 0 <= k < |Featured| ==> Consistent(Featured[k])
  {
  }

  lemma FeaturedIndexed()
    ensures forall k :: 0 <= k < |Featured| ==> IndexOf(Featured[k].id) == 0 + k
  {
  }

  lemma GyeonggiFacts()
    ensures forall k :: 0 <= k < |Gyeonggi| ==> Consistent(Gyeonggi[k])
  {
  }

  lemma GyeonggiIndexed()
    ensures forall k :: 0 <= k < |Gyeonggi| ==> IndexOf(Gyeonggi[k].id) == 13 + k
  {
  }

  lemma BusanFacts()
    ensures forall k :: 0 <= k < |Busan| ==> Consistent(Busan[k])
  {
  }

  lemma BusanIndexed()
    ensures forall k :: 0 <= k < |Busan| ==> IndexOf(Busan[k].id) == 21 + k
  {
  }

  lemma IncheonFacts()
    ensures forall k :: 0 <= k < |Incheon| ==> Consistent(Incheon[k])
  {
  }

  lemma IncheonIndexed()
    ensures forall k :: 0 <= k < |Incheon| ==> IndexOf(Incheon[k].id) == 30 + k
  {
  }

  lemma DaejeonFacts()
    ensures forall k :: 0 <= k < |Daejeon| ==> Consistent(Daejeon[k])
  {
  }

  lemma DaejeonIndexed()
    ensures forall k :: 0 <= k < |Daejeon| ==> IndexOf(Daejeon[k].id) == 40 + k
  {
  }

  /** The catalog has fifty coins with pairwise different ids, all
      consistent, so the tick engine's invariant holds at mount and every id
      selects its own coin; at start every price is on a 1,000 tick. A rate
      of exactly zero marks exactly the coins that have not moved (GCI, DLCL,
      SCC and DZI). */
  lemma CatalogFacts()
    ensures |Coins| == 50
    ensures IdsDistinct(Coins)
    ensures CoinsReady(Coins) && RatesCurrent(Coins)
    ensures forall k :: 0 <= k < |Coins| ==> Consistent(Coins[k]) && TickSize(Coins[k].price) == 1000.0
    ensures forall k :: 0 <= k < |Coins| ==> (Coins[k].changeRate == 0.0 <==> Coins[k].price == Coins[k].prevPrice)
  {
    FeaturedFacts();
    GyeonggiFacts();
    BusanFacts();
    IncheonFacts();
    DaejeonFacts();
    FeaturedIndexed();
    GyeonggiIndexed();
    BusanIndexed();
    IncheonIndexed();
    DaejeonIndexed();
    assert forall k :: 0 <= k < |Coins| ==> Consistent(Coins[k]) && IndexOf(Coins[k].id) == k;
  }

  /** `MOCK_ORDERBOOK` (constants.ts:73-92): seven asks from the top down,
      then seven bids from the top down. */
  const MockAsks: seq<OrderBookItem> := [
    OrderBookItem(2910.0, 1767, -0.82), OrderBookItem(2909.0, 23286, -0.85),
    OrderBookItem(2908.0, 60245, -0.89), OrderBookItem(2907.0, 37083, -0.92),
    OrderBookItem(2906.0, 33161, -0.95), OrderBookItem(2905.0, 92801, -0.99),
    OrderBookItem(2904.0, 7777, -1.02)
  ]

  const MockBids: seq<OrderBookItem> := [
    OrderBookItem(2903.0, 9000, -1.06), OrderBookItem(2902.0, 59575, -1.09),
    OrderBookItem(2901.0, 97200, -1.12), OrderBookItem(2900.0, 402234, -1.16),
    OrderBookItem(2899.0, 40473, -1.19), OrderBookItem(2898.0, 54856, -1.23),
    OrderBookItem(2897.0, 48885, -1.26)
  ]

  /** The book as the view shows it: the asks, then the bids. */
  const MockBook: seq<OrderBookItem> := MockAsks + MockBids

  /** The static book has the shape the synthesiser gives a coin priced 2,903
      (tick 1): seven asks at 2,910 down to 2,904 and seven bids at 2,903 down
      to 2,897, one run falling by exactly one. */
  lemma MockBookShape()
    ensures |MockAsks| == Kept && |MockBids| == Kept && TickSize(2903.0) == 1.0
    ensures forall k :: 0 <= k < Kept ==>
      MockAsks[k].price == AskPrice(2903.0, TickSize(2903.0), Kept - 1 - k) &&
      MockBids[k].price == BidPrice(2903.0, TickSize(2903.0), k)
    ensures forall k :: 0 < k < |MockBook| ==> MockBook[k].price == MockBook[k - 1].price - 1.0
  {
    assert forall k :: 0 <= k < |MockBook| ==> MockBook[k].price == 2910.0 - k as real;
  }

  /** Along the run the rates strictly fall, and every amount is positive. */
  lemma MockBookRates()
    ensures forall i, j :: 0 <= i < j < |MockBook| ==> MockBook[i].changeRate > MockBook[j].changeRate
    ensures forall k :: 0 <= k < |MockBook| ==> MockBook[k].amount > 0
  {
    assert forall k :: 0 < k < |MockBook| ==> MockBook[k].changeRate < MockBook[k - 1].changeRate;
    forall i, j | 0 <= i < j < |MockBook| ensures MockBook[i].changeRate > MockBook[j].changeRate {
      DescendingChain(MockBook, i, j);
    }
  }

  /** Each rate is the change-rate formula against a baseline of 2,934, to two
      decimals. */
  lemma MockBookBaseline()
    ensures forall k :: 0 <= k < |MockBook| ==>
      -0.005 < MockBook[k].changeRate - ChangeRate(MockBook[k].price, 2934.0) < 0.005
  {
  }
  /** A step-by-step fall of the rates is a fall between any two levels. */
  lemma {:induction false} DescendingChain(book: seq<OrderBookItem>, i: nat, j: nat)
    requires forall k :: 0 < k < |book| ==> book[k].changeRate < book[k - 1].changeRate
    requires i < j < |book|
    ensures book[i].changeRate > book[j].changeRate
    decreases j - i
  {
    if j > i + 1 {
      DescendingChain(book, i, j - 1);
    }
  }
}
