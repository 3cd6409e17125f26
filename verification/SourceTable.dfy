/** The table of source permutations: 625 rows, one hexadecimal digit per entry. The table
    is proved to hold exactly the permitted permutations, in increasing order. */
module SourceTable {
  import opened Words
  import opened WordLaws
  import opened Displacements

  const NUM_SRC_PERM: nat := 625

  function Digit(w: u32, i: nat): (d: u32)
    requires i < 8
    ensures d < 16
  {
    match i
    case 0 => (w >> 28) & 15
    case 1 => (w >> 24) & 15
    case 2 => (w >> 20) & 15
    case 3 => (w >> 16) & 15
    case 4 => (w >> 12) & 15
    case 5 => (w >> 8) & 15
    case 6 => (w >> 4) & 15
    case _ => w & 15
  }

  lemma DigitForm(w: u32, i: nat, n: u32)
    requires i < 8 && n == Shift(i)
    ensures n <= 64 && ZeroExtend(Digit(w, i)) == And(Lsr(ZeroExtend(w), n), 15)
  {
  }

  /** How far digit i stands above the last one. */
  function Shift(i: nat): u32
    requires i < 8
  {
    match i case 0 => 28 case 1 => 24 case 2 => 20 case 3 => 16 case 4 => 12 case 5 => 8 case 6 => 4 case _ => 0
  }

  lemma ShiftNumber(i: nat)
    requires i < 8
    ensures Shift(i) <= 64 && Number32(Shift(i)) == 28 - 4 * i
  {
  }

  /** Digit i of eight, the first being the most significant. */
  lemma DigitNumber(w: u32, i: nat)
    requires i < 8
    ensures Number32(Digit(w, i)) == Number32(w) / Pow2(28 - 4 * i) % 16
  {
    hide Digit, Shift, Number, Number32, ZeroExtend, And, Lsr, Pow2;
    ShiftNumber(i);
    DigitForm(w, i, Shift(i));
    ZeroExtendNumber(Digit(w, i));
    And15Number(Lsr(ZeroExtend(w), Shift(i)));
    LsrNumber(ZeroExtend(w), Shift(i));
    ZeroExtendNumber(w);
  }

  function OneHot(v: u32): u32
    requires v < 16
  {
    (1 as u32) << v
  }

  /** The eight digits are 0-7 in some order. */
  predicate Permutation(w: u32) {
    OneHot(Digit(w, 0)) | OneHot(Digit(w, 1)) | OneHot(Digit(w, 2)) | OneHot(Digit(w, 3))
    | OneHot(Digit(w, 4)) | OneHot(Digit(w, 5)) | OneHot(Digit(w, 6)) | OneHot(Digit(w, 7)) == 0xff
  }

  /** What no row holds at a position: the instruction's own destination, and those of earlier
      results that a compiler may still hold back. */
  predicate Placed(w: u32) {
    var a, b, c, d := Digit(w, 0), Digit(w, 1), Digit(w, 2), Digit(w, 3);
    var e, f, g, h := Digit(w, 4), Digit(w, 5), Digit(w, 6), Digit(w, 7);
    && a != 1 && a != 3 && a != 5
    && b != 0 && b != 1
    && c != 0 && c != 2
    && d != 0 && d != 2 && d != 3
    && e != 0 && e != 2 && e != 4
    && f != 0 && f != 2 && f != 4 && f != 5
    && g != 2 && g != 4 && g != 6
    && (h == 0 || h == 2)
  }

  predicate Permitted(w: u32) {
    Permutation(w) && Placed(w)
  }

  // ----- the rows, in blocks of 25 -----

  function Rows00(): seq<u32> {
    [ 0x0314_5672, 0x0314_6752, 0x0314_7652, 0x0341_5672, 0x0341_6752,
      0x0341_7652, 0x0345_1672, 0x0345_6172, 0x0345_6712, 0x0345_7612,
      0x0346_1752, 0x0346_5172, 0x0346_5712, 0x0346_7152, 0x0347_1652,
      0x0347_5612, 0x0347_6152, 0x0354_1672, 0x0354_6172, 0x0354_6712,
      0x0354_7612, 0x0364_1752, 0x0364_5172, 0x0364_5712, 0x0364_7152 ]
  }

  function Rows01(): seq<u32> {
    [ 0x0374_1652, 0x0374_5612, 0x0374_6152, 0x0415_3672, 0x0415_6372,
      0x0415_6732, 0x0415_7632, 0x0416_3752, 0x0416_5372, 0x0416_5732,
      0x0416_7352, 0x0417_3652, 0x0417_5632, 0x0417_6352, 0x0431_5672,
      0x0431_6752, 0x0431_7652, 0x0435_1672, 0x0435_6172, 0x0435_6712,
      0x0435_7612, 0x0436_1752, 0x0436_5172, 0x0436_5712, 0x0436_7152 ]
  }

  function Rows02(): seq<u32> {
    [ 0x0437_1652, 0x0437_5612, 0x0437_6152, 0x0451_3672, 0x0451_6372,
      0x0451_6732, 0x0451_7632, 0x0456_1372, 0x0456_1732, 0x0456_3172,
      0x0456_3712, 0x0456_7132, 0x0456_7312, 0x0457_1632, 0x0457_3612,
      0x0457_6132, 0x0457_6312, 0x0461_3752, 0x0461_5372, 0x0461_5732,
      0x0461_7352, 0x0465_1372, 0x0465_1732, 0x0465_3172, 0x0465_3712 ]
  }

  function Rows03(): seq<u32> {
    [ 0x0465_7132, 0x0465_7312, 0x0467_1352, 0x0467_3152, 0x0467_5132,
      0x0467_5312, 0x0471_3652, 0x0471_5632, 0x0471_6352, 0x0475_1632,
      0x0475_3612, 0x0475_6132, 0x0475_6312, 0x0476_1352, 0x0476_3152,
      0x0476_5132, 0x0476_5312, 0x0514_3672, 0x0514_6372, 0x0514_6732,
      0x0514_7632, 0x0534_1672, 0x0534_6172, 0x0534_6712, 0x0534_7612 ]
  }

  function Rows04(): seq<u32> {
    [ 0x0541_3672, 0x0541_6372, 0x0541_6732, 0x0541_7632, 0x0546_1372,
      0x0546_1732, 0x0546_3172, 0x0546_3712, 0x0546_7132, 0x0546_7312,
      0x0547_1632, 0x0547_3612, 0x0547_6132, 0x0547_6312, 0x0564_1372,
      0x0564_1732, 0x0564_3172, 0x0564_3712, 0x0564_7132, 0x0564_7312,
      0x0574_1632, 0x0574_3612, 0x0574_6132, 0x0574_6312, 0x0614_3752 ]
  }

  function Rows05(): seq<u32> {
    [ 0x0614_5372, 0x0614_5732, 0x0614_7352, 0x0634_1752, 0x0634_5172,
      0x0634_5712, 0x0634_7152, 0x0641_3752, 0x0641_5372, 0x0641_5732,
      0x0641_7352, 0x0645_1372, 0x0645_1732, 0x0645_3172, 0x0645_3712,
      0x0645_7132, 0x0645_7312, 0x0647_1352, 0x0647_3152, 0x0647_5132,
      0x0647_5312, 0x0654_1372, 0x0654_1732, 0x0654_3172, 0x0654_3712 ]
  }

  function Rows06(): seq<u32> {
    [ 0x0654_7132, 0x0654_7312, 0x0674_1352, 0x0674_3152, 0x0674_5132,
      0x0674_5312, 0x0714_3652, 0x0714_5632, 0x0714_6352, 0x0734_1652,
      0x0734_5612, 0x0734_6152, 0x0741_3652, 0x0741_5632, 0x0741_6352,
      0x0745_1632, 0x0745_3612, 0x0745_6132, 0x0745_6312, 0x0746_1352,
      0x0746_3152, 0x0746_5132, 0x0746_5312, 0x0754_1632, 0x0754_3612 ]
  }

  function Rows07(): seq<u32> {
    [ 0x0754_6132, 0x0754_6312, 0x0764_1352, 0x0764_3152, 0x0764_5132,
      0x0764_5312, 0x2314_5670, 0x2314_6750, 0x2314_7650, 0x2341_5670,
      0x2341_6750, 0x2341_7650, 0x2345_1670, 0x2345_6170, 0x2345_6710,
      0x2345_7610, 0x2346_1750, 0x2346_5170, 0x2346_5710, 0x2346_7150,
      0x2347_1650, 0x2347_5610, 0x2347_6150, 0x2354_1670, 0x2354_6170 ]
  }

  function Rows08(): seq<u32> {
    [ 0x2354_6710, 0x2354_7610, 0x2364_1750, 0x2364_5170, 0x2364_5710,
      0x2364_7150, 0x2374_1650, 0x2374_5610, 0x2374_6150, 0x2415_3670,
      0x2415_6370, 0x2415_6730, 0x2415_7630, 0x2416_3750, 0x2416_5370,
      0x2416_5730, 0x2416_7350, 0x2417_3650, 0x2417_5630, 0x2417_6350,
      0x2431_5670, 0x2431_6750, 0x2431_7650, 0x2435_1670, 0x2435_6170 ]
  }

  function Rows09(): seq<u32> {
    [ 0x2435_6710, 0x2435_7610, 0x2436_1750, 0x2436_5170, 0x2436_5710,
      0x2436_7150, 0x2437_1650, 0x2437_5610, 0x2437_6150, 0x2451_3670,
      0x2451_6370, 0x2451_6730, 0x2451_7630, 0x2456_1370, 0x2456_1730,
      0x2456_3170, 0x2456_3710, 0x2456_7130, 0x2456_7310, 0x2457_1630,
      0x2457_3610, 0x2457_6130, 0x2457_6310, 0x2461_3750, 0x2461_5370 ]
  }

  function Rows10(): seq<u32> {
    [ 0x2461_5730, 0x2461_7350, 0x2465_1370, 0x2465_1730, 0x2465_3170,
      0x2465_3710, 0x2465_7130, 0x2465_7310, 0x2467_1350, 0x2467_3150,
      0x2467_5130, 0x2467_5310, 0x2471_3650, 0x2471_5630, 0x2471_6350,
      0x2475_1630, 0x2475_3610, 0x2475_6130, 0x2475_6310, 0x2476_1350,
      0x2476_3150, 0x2476_5130, 0x2476_5310, 0x2514_3670, 0x2514_6370 ]
  }

  function Rows11(): seq<u32> {
    [ 0x2514_6730, 0x2514_7630, 0x2534_1670, 0x2534_6170, 0x2534_6710,
      0x2534_7610, 0x2541_3670, 0x2541_6370, 0x2541_6730, 0x2541_7630,
      0x2546_1370, 0x2546_1730, 0x2546_3170, 0x2546_3710, 0x2546_7130,
      0x2546_7310, 0x2547_1630, 0x2547_3610, 0x2547_6130, 0x2547_6310,
      0x2564_1370, 0x2564_1730, 0x2564_3170, 0x2564_3710, 0x2564_7130 ]
  }

  function Rows12(): seq<u32> {
    [ 0x2564_7310, 0x2574_1630, 0x2574_3610, 0x2574_6130, 0x2574_6310,
      0x2614_3750, 0x2614_5370, 0x2614_5730, 0x2614_7350, 0x2634_1750,
      0x2634_5170, 0x2634_5710, 0x2634_7150, 0x2641_3750, 0x2641_5370,
      0x2641_5730, 0x2641_7350, 0x2645_1370, 0x2645_1730, 0x2645_3170,
      0x2645_3710, 0x2645_7130, 0x2645_7310, 0x2647_1350, 0x2647_3150 ]
  }

  function Rows13(): seq<u32> {
    [ 0x2647_5130, 0x2647_5310, 0x2654_1370, 0x2654_1730, 0x2654_3170,
      0x2654_3710, 0x2654_7130, 0x2654_7310, 0x2674_1350, 0x2674_3150,
      0x2674_5130, 0x2674_5310, 0x2714_3650, 0x2714_5630, 0x2714_6350,
      0x2734_1650, 0x2734_5610, 0x2734_6150, 0x2741_3650, 0x2741_5630,
      0x2741_6350, 0x2745_1630, 0x2745_3610, 0x2745_6130, 0x2745_6310 ]
  }

  function Rows14(): seq<u32> {
    [ 0x2746_1350, 0x2746_3150, 0x2746_5130, 0x2746_5310, 0x2754_1630,
      0x2754_3610, 0x2754_6130, 0x2754_6310, 0x2764_1350, 0x2764_3150,
      0x2764_5130, 0x2764_5310, 0x4215_3670, 0x4215_6370, 0x4215_6730,
      0x4215_7630, 0x4216_3750, 0x4216_5370, 0x4216_5730, 0x4216_7350,
      0x4217_3650, 0x4217_5630, 0x4217_6350, 0x4231_5670, 0x4231_6750 ]
  }

  function Rows15(): seq<u32> {
    [ 0x4231_7650, 0x4235_1670, 0x4235_6170, 0x4235_6710, 0x4235_7610,
      0x4236_1750, 0x4236_5170, 0x4236_5710, 0x4236_7150, 0x4237_1650,
      0x4237_5610, 0x4237_6150, 0x4251_3670, 0x4251_6370, 0x4251_6730,
      0x4251_7630, 0x4256_1370, 0x4256_1730, 0x4256_3170, 0x4256_3710,
      0x4256_7130, 0x4256_7310, 0x4257_1630, 0x4257_3610, 0x4257_6130 ]
  }

  function Rows16(): seq<u32> {
    [ 0x4257_6310, 0x4261_3750, 0x4261_5370, 0x4261_5730, 0x4261_7350,
      0x4265_1370, 0x4265_1730, 0x4265_3170, 0x4265_3710, 0x4265_7130,
      0x4265_7310, 0x4267_1350, 0x4267_3150, 0x4267_5130, 0x4267_5310,
      0x4271_3650, 0x4271_5630, 0x4271_6350, 0x4275_1630, 0x4275_3610,
      0x4275_6130, 0x4275_6310, 0x4276_1350, 0x4276_3150, 0x4276_5130 ]
  }

  function Rows17(): seq<u32> {
    [ 0x4276_5310, 0x4315_6702, 0x4315_7602, 0x4316_5702, 0x4317_5602,
      0x4351_6702, 0x4351_7602, 0x4356_1702, 0x4356_7102, 0x4357_1602,
      0x4357_6102, 0x4361_5702, 0x4365_1702, 0x4365_7102, 0x4367_5102,
      0x4371_5602, 0x4375_1602, 0x4375_6102, 0x4376_5102, 0x4516_3702,
      0x4516_7302, 0x4517_3602, 0x4517_6302, 0x4531_6702, 0x4531_7602 ]
  }

  function Rows18(): seq<u32> {
    [ 0x4536_1702, 0x4536_7102, 0x4537_1602, 0x4537_6102, 0x4561_3702,
      0x4561_7302, 0x4567_1302, 0x4567_3102, 0x4571_3602, 0x4571_6302,
      0x4576_1302, 0x4576_3102, 0x4615_3702, 0x4615_7302, 0x4617_5302,
      0x4631_5702, 0x4635_1702, 0x4635_7102, 0x4637_5102, 0x4651_3702,
      0x4651_7302, 0x4657_1302, 0x4657_3102, 0x4671_5302, 0x4675_1302 ]
  }

  function Rows19(): seq<u32> {
    [ 0x4675_3102, 0x4715_3602, 0x4715_6302, 0x4716_5302, 0x4731_5602,
      0x4735_1602, 0x4735_6102, 0x4736_5102, 0x4751_3602, 0x4751_6302,
      0x4756_1302, 0x4756_3102, 0x4761_5302, 0x4765_1302, 0x4765_3102,
      0x6214_3750, 0x6214_5370, 0x6214_5730, 0x6214_7350, 0x6234_1750,
      0x6234_5170, 0x6234_5710, 0x6234_7150, 0x6241_3750, 0x6241_5370 ]
  }

  function Rows20(): seq<u32> {
    [ 0x6241_5730, 0x6241_7350, 0x6245_1370, 0x6245_1730, 0x6245_3170,
      0x6245_3710, 0x6245_7130, 0x6245_7310, 0x6247_1350, 0x6247_3150,
      0x6247_5130, 0x6247_5310, 0x6254_1370, 0x6254_1730, 0x6254_3170,
      0x6254_3710, 0x6254_7130, 0x6254_7310, 0x6274_1350, 0x6274_3150,
      0x6274_5130, 0x6274_5310, 0x6314_5702, 0x6341_5702, 0x6345_1702 ]
  }

  function Rows21(): seq<u32> {
    [ 0x6345_7102, 0x6347_5102, 0x6354_1702, 0x6354_7102, 0x6374_5102,
      0x6415_3702, 0x6415_7302, 0x6417_5302, 0x6431_5702, 0x6435_1702,
      0x6435_7102, 0x6437_5102, 0x6451_3702, 0x6451_7302, 0x6457_1302,
      0x6457_3102, 0x6471_5302, 0x6475_1302, 0x6475_3102, 0x6514_3702,
      0x6514_7302, 0x6534_1702, 0x6534_7102, 0x6541_3702, 0x6541_7302 ]
  }

  function Rows22(): seq<u32> {
    [ 0x6547_1302, 0x6547_3102, 0x6574_1302, 0x6574_3102, 0x6714_5302,
      0x6734_5102, 0x6741_5302, 0x6745_1302, 0x6745_3102, 0x6754_1302,
      0x6754_3102, 0x7214_3650, 0x7214_5630, 0x7214_6350, 0x7234_1650,
      0x7234_5610, 0x7234_6150, 0x7241_3650, 0x7241_5630, 0x7241_6350,
      0x7245_1630, 0x7245_3610, 0x7245_6130, 0x7245_6310, 0x7246_1350 ]
  }

  function Rows23(): seq<u32> {
    [ 0x7246_3150, 0x7246_5130, 0x7246_5310, 0x7254_1630, 0x7254_3610,
      0x7254_6130, 0x7254_6310, 0x7264_1350, 0x7264_3150, 0x7264_5130,
      0x7264_5310, 0x7314_5602, 0x7341_5602, 0x7345_1602, 0x7345_6102,
      0x7346_5102, 0x7354_1602, 0x7354_6102, 0x7364_5102, 0x7415_3602,
      0x7415_6302, 0x7416_5302, 0x7431_5602, 0x7435_1602, 0x7435_6102 ]
  }

  function Rows24(): seq<u32> {
    [ 0x7436_5102, 0x7451_3602, 0x7451_6302, 0x7456_1302, 0x7456_3102,
      0x7461_5302, 0x7465_1302, 0x7465_3102, 0x7514_3602, 0x7514_6302,
      0x7534_1602, 0x7534_6102, 0x7541_3602, 0x7541_6302, 0x7546_1302,
      0x7546_3102, 0x7564_1302, 0x7564_3102, 0x7614_5302, 0x7634_5102,
      0x7641_5302, 0x7645_1302, 0x7645_3102, 0x7654_1302, 0x7654_3102 ]
  }

  function Rows(c: nat): seq<u32>
    requires c < 25
  {
    match c
    case 0 => Rows00() case 1 => Rows01() case 2 => Rows02() case 3 => Rows03() case 4 => Rows04()
    case 5 => Rows05() case 6 => Rows06() case 7 => Rows07() case 8 => Rows08() case 9 => Rows09()
    case 10 => Rows10() case 11 => Rows11() case 12 => Rows12() case 13 => Rows13() case 14 => Rows14()
    case 15 => Rows15() case 16 => Rows16() case 17 => Rows17() case 18 => Rows18() case 19 => Rows19()
    case 20 => Rows20() case 21 => Rows21() case 22 => Rows22() case 23 => Rows23() case _ => Rows24()
  }

  /** The first row of block c; one past the largest packed permutation for c == 25. */
  function Start(c: nat): u32
    requires c <= 25
  {
    match c
    case 0 => 0x0314_5672 case 1 => 0x0374_1652 case 2 => 0x0437_1652 case 3 => 0x0465_7132 case 4 => 0x0541_3672
    case 5 => 0x0614_5372 case 6 => 0x0654_7132 case 7 => 0x0754_6132 case 8 => 0x2354_6710 case 9 => 0x2435_6710
    case 10 => 0x2461_5730 case 11 => 0x2514_6730 case 12 => 0x2564_7310 case 13 => 0x2647_5130 case 14 => 0x2746_1350
    case 15 => 0x4231_7650 case 16 => 0x4257_6310 case 17 => 0x4276_5310 case 18 => 0x4536_1702 case 19 => 0x4675_3102
    case 20 => 0x6241_5730 case 21 => 0x6345_7102 case 22 => 0x6547_1302 case 23 => 0x7246_3150 case 24 => 0x7436_5102
    case _ => 0x8000_0000
  }

  /** Rows are compared as packed numbers, which is their lexicographic order. */
  predicate Below(a: u32, b: u32) { a < b }

  // ----- block by block: permitted, increasing, and complete for an interval -----

  lemma Permutes00(k: nat)
    requires k < 25
    ensures |Rows00()| == 25 && Permutation(Rows00()[k])
  {
    match k
    case 0 => case 1 => case 2 => case 3 => case 4 => case 5 => case 6 => case 7 => case 8 => case 9 => case 10 =>
    case 11 => case 12 => case 13 => case 14 => case 15 => case 16 => case 17 => case 18 => case 19 => case 20 =>
    case 21 => case 22 => case 23 => case 24 =>
  }

  lemma Places00(k: nat)
    requires k < 25
    ensures |Rows00()| == 25 && Placed(Rows00()[k])
  {
    match k
    case 0 => case 1 => case 2 => case 3 => case 4 => case 5 => case 6 => case 7 => case 8 => case 9 => case 10 =>
    case 11 => case 12 => case 13 => case 14 => case 15 => case 16 => case 17 => case 18 => case 19 => case 20 =>
    case 21 => case 22 => case 23 => case 24 =>
  }

  lemma Increasing00(k: nat)
    requires k < 24
    ensures |Rows00()| == 25 && Below(Rows00()[k], Rows00()[k + 1])
  {
    match k
    case 0 => case 1 => case 2 => case 3 => case 4 => case 5 => case 6 => case 7 => case 8 => case 9 => case 10 =>
    case 11 => case 12 => case 13 => case 14 => case 15 => case 16 => case 17 => case 18 => case 19 => case 20 =>
    case 21 => case 22 => case 23 =>
  }

  lemma Complete00(w: u32)
    ensures |Rows00()| == 25 && Rows00()[0] == 0x0314_5672 && Below(Rows00()[24], 0x0374_1652)
    ensures !Below(w, 0x0314_5672) && Below(w, 0x0374_1652) && Permitted(w) ==> w in Rows00()
  {
  }

  lemma Permutes01(k: nat)
    requires k < 25
    ensures |Rows01()| == 25 && Permutation(Rows01()[k])
  {
    match k
    case 0 => case 1 => case 2 => case 3 => case 4 => case 5 => case 6 => case 7 => case 8 => case 9 => case 10 =>
    case 11 => case 12 => case 13 => case 14 => case 15 => case 16 => case 17 => case 18 => case 19 => case 20 =>
    case 21 => case 22 => case 23 => case 24 =>
  }

  lemma Places01(k: nat)
    requires k < 25
    ensures |Rows01()| == 25 && Placed(Rows01()[k])
  {
    match k
    case 0 => case 1 => case 2 => case 3 => case 4 => case 5 => case 6 => case 7 => case 8 => case 9 => case 10 =>
    case 11 => case 12 => case 13 => case 14 => case 15 => case 16 => case 17 => case 18 => case 19 => case 20 =>
    case 21 => case 22 => case 23 => case 24 =>
  }

  lemma Increasing01(k: nat)
    requires k < 24
    ensures |Rows01()| == 25 && Below(Rows01()[k], Rows01()[k + 1])
  {
    match k
    case 0 => case 1 => case 2 => case 3 => case 4 => case 5 => case 6 => case 7 => case 8 => case 9 => case 10 =>
    case 11 => case 12 => case 13 => case 14 => case 15 => case 16 => case 17 => case 18 => case 19 => case 20 =>
    case 21 => case 22 => case 23 =>
  }

  lemma Complete01(w: u32)
    ensures |Rows01()| == 25 && Rows01()[0] == 0x0374_1652 && Below(Rows01()[24], 0x0437_1652)
    ensures !Below(w, 0x0374_1652) && Below(w, 0x0437_1652) && Permitted(w) ==> w in Rows01()
  {
  }

  lemma Permutes02(k: nat)
    requires k < 25
    ensures |Rows02()| == 25 && Permutation(Rows02()[k])
  {
    match k
    case 0 => case 1 => case 2 => case 3 => case 4 => case 5 => case 6 => case 7 => case 8 => case 9 => case 10 =>
    case 11 => case 12 => case 13 => case 14 => case 15 => case 16 => case 17 => case 18 => case 19 => case 20 =>
    case 21 => case 22 => case 23 => case 24 =>
  }

  lemma Places02(k: nat)
    requires k < 25
    ensures |Rows02()| == 25 && Placed(Rows02()[k])
  {
    match k
    case 0 => case 1 => case 2 => case 3 => case 4 => case 5 => case 6 => case 7 => case 8 => case 9 => case 10 =>
    case 11 => case 12 => case 13 => case 14 => case 15 => case 16 => case 17 => case 18 => case 19 => case 20 =>
    case 21 => case 22 => case 23 => case 24 =>
  }

  lemma Increasing02(k: nat)
    requires k < 24
    ensures |Rows02()| == 25 && Below(Rows02()[k], Rows02()[k + 1])
  {
    match k
    case 0 => case 1 => case 2 => case 3 => case 4 => case 5 => case 6 => case 7 => case 8 => case 9 => case 10 =>
    case 11 => case 12 => case 13 => case 14 => case 15 => case 16 => case 17 => case 18 => case 19 => case 20 =>
    case 21 => case 22 => case 23 =>
  }

  lemma Complete02(w: u32)
    ensures |Rows02()| == 25 && Rows02()[0] == 0x0437_1652 && Below(Rows02()[24], 0x0465_7132)
    ensures !Below(w, 0x0437_1652) && Below(w, 0x0465_7132) && Permitted(w) ==> w in Rows02()
  {
  }

  lemma Permutes03(k: nat)
    requires k < 25
    ensures |Rows03()| == 25 && Permutation(Rows03()[k])
  {
    match k
    case 0 => case 1 => case 2 => case 3 => case 4 => case 5 => case 6 => case 7 => case 8 => case 9 => case 10 =>
    case 11 => case 12 => case 13 => case 14 => case 15 => case 16 => case 17 => case 18 => case 19 => case 20 =>
    case 21 => case 22 => case 23 => case 24 =>
  }

  lemma Places03(k: nat)
    requires k < 25
    ensures |Rows03()| == 25 && Placed(Rows03()[k])
  {
    match k
    case 0 => case 1 => case 2 => case 3 => case 4 => case 5 => case 6 => case 7 => case 8 => case 9 => case 10 =>
    case 11 => case 12 => case 13 => case 14 => case 15 => case 16 => case 17 => case 18 => case 19 => case 20 =>
    case 21 => case 22 => case 23 => case 24 =>
  }

  lemma Increasing03(k: nat)
    requires k < 24
    ensures |Rows03()| == 25 && Below(Rows03()[k], Rows03()[k + 1])
  {
    match k
    case 0 => case 1 => case 2 => case 3 => case 4 => case 5 => case 6 => case 7 => case 8 => case 9 => case 10 =>
    case 11 => case 12 => case 13 => case 14 => case 15 => case 16 => case 17 => case 18 => case 19 => case 20 =>
    case 21 => case 22 => case 23 =>
  }

  lemma Complete03(w: u32)
    ensures |Rows03()| == 25 && Rows03()[0] == 0x0465_7132 && Below(Rows03()[24], 0x0541_3672)
    ensures !Below(w, 0x0465_7132) && Below(w, 0x0541_3672) && Permitted(w) ==> w in Rows03()
  {
  }

  lemma Permutes04(k: nat)
    requires k < 25
    ensures |Rows04()| == 25 && Permutation(Rows04()[k])
  {
    match k
    case 0 => case 1 => case 2 => case 3 => case 4 => case 5 => case 6 => case 7 => case 8 => case 9 => case 10 =>
    case 11 => case 12 => case 13 => case 14 => case 15 => case 16 => case 17 => case 18 => case 19 => case 20 =>
    case 21 => case 22 => case 23 => case 24 =>
  }

  lemma Places04(k: nat)
    requires k < 25
    ensures |Rows04()| == 25 && Placed(Rows04()[k])
  {
    match k
    case 0 => case 1 => case 2 => case 3 => case 4 => case 5 => case 6 => case 7 => case 8 => case 9 => case 10 =>
    case 11 => case 12 => case 13 => case 14 => case 15 => case 16 => case 17 => case 18 => case 19 => case 20 =>
    case 21 => case 22 => case 23 => case 24 =>
  }

  lemma Increasing04(k: nat)
    requires k < 24
    ensures |Rows04()| == 25 && Below(Rows04()[k], Rows04()[k + 1])
  {
    match k
    case 0 => case 1 => case 2 => case 3 => case 4 => case 5 => case 6 => case 7 => case 8 => case 9 => case 10 =>
    case 11 => case 12 => case 13 => case 14 => case 15 => case 16 => case 17 => case 18 => case 19 => case 20 =>
    case 21 => case 22 => case 23 =>
  }

  lemma Complete04(w: u32)
    ensures |Rows04()| == 25 && Rows04()[0] == 0x0541_3672 && Below(Rows04()[24], 0x0614_5372)
    ensures !Below(w, 0x0541_3672) && Below(w, 0x0614_5372) && Permitted(w) ==> w in Rows04()
  {
  }

  lemma Permutes05(k: nat)
    requires k < 25
    ensures |Rows05()| == 25 && Permutation(Rows05()[k])
  {
    match k
    case 0 => case 1 => case 2 => case 3 => case 4 => case 5 => case 6 => case 7 => case 8 => case 9 => case 10 =>
    case 11 => case 12 => case 13 => case 14 => case 15 => case 16 => case 17 => case 18 => case 19 => case 20 =>
    case 21 => case 22 => case 23 => case 24 =>
  }

  lemma Places05(k: nat)
    requires k < 25
    ensures |Rows05()| == 25 && Placed(Rows05()[k])
  {
    match k
    case 0 => case 1 => case 2 => case 3 => case 4 => case 5 => case 6 => case 7 => case 8 => case 9 => case 10 =>
    case 11 => case 12 => case 13 => case 14 => case 15 => case 16 => case 17 => case 18 => case 19 => case 20 =>
    case 21 => case 22 => case 23 => case 24 =>
  }

  lemma Increasing05(k: nat)
    requires k < 24
    ensures |Rows05()| == 25 && Below(Rows05()[k], Rows05()[k + 1])
  {
    match k
    case 0 => case 1 => case 2 => case 3 => case 4 => case 5 => case 6 => case 7 => case 8 => case 9 => case 10 =>
    case 11 => case 12 => case 13 => case 14 => case 15 => case 16 => case 17 => case 18 => case 19 => case 20 =>
    case 21 => case 22 => case 23 =>
  }

  lemma Complete05(w: u32)
    ensures |Rows05()| == 25 && Rows05()[0] == 0x0614_5372 && Below(Rows05()[24], 0x0654_7132)
    ensures !Below(w, 0x0614_5372) && Below(w, 0x0654_7132) && Permitted(w) ==> w in Rows05()
  {
  }

  lemma Permutes06(k: nat)
    requires k < 25
    ensures |Rows06()| == 25 && Permutation(Rows06()[k])
  {
    match k
    case 0 => case 1 => case 2 => case 3 => case 4 => case 5 => case 6 => case 7 => case 8 => case 9 => case 10 =>
    case 11 => case 12 => case 13 => case 14 => case 15 => case 16 => case 17 => case 18 => case 19 => case 20 =>
    case 21 => case 22 => case 23 => case 24 =>
  }

  lemma Places06(k: nat)
    requires k < 25
    ensures |Rows06()| == 25 && Placed(Rows06()[k])
  {
    match k
    case 0 => case 1 => case 2 => case 3 => case 4 => case 5 => case 6 => case 7 => case 8 => case 9 => case 10 =>
    case 11 => case 12 => case 13 => case 14 => case 15 => case 16 => case 17 => case 18 => case 19 => case 20 =>
    case 21 => case 22 => case 23 => case 24 =>
  }

  lemma Increasing06(k: nat)
    requires k < 24
    ensures |Rows06()| == 25 && Below(Rows06()[k], Rows06()[k + 1])
  {
    match k
    case 0 => case 1 => case 2 => case 3 => case 4 => case 5 => case 6 => case 7 => case 8 => case 9 => case 10 =>
    case 11 => case 12 => case 13 => case 14 => case 15 => case 16 => case 17 => case 18 => case 19 => case 20 =>
    case 21 => case 22 => case 23 =>
  }

  lemma Complete06(w: u32)
    ensures |Rows06()| == 25 && Rows06()[0] == 0x0654_7132 && Below(Rows06()[24], 0x0754_6132)
    ensures !Below(w, 0x0654_7132) && Below(w, 0x0754_6132) && Permitted(w) ==> w in Rows06()
  {
  }

  lemma Permutes07(k: nat)
    requires k < 25
    ensures |Rows07()| == 25 && Permutation(Rows07()[k])
  {
    match k
    case 0 => case 1 => case 2 => case 3 => case 4 => case 5 => case 6 => case 7 => case 8 => case 9 => case 10 =>
    case 11 => case 12 => case 13 => case 14 => case 15 => case 16 => case 17 => case 18 => case 19 => case 20 =>
    case 21 => case 22 => case 23 => case 24 =>
  }

  lemma Places07(k: nat)
    requires k < 25
    ensures |Rows07()| == 25 && Placed(Rows07()[k])
  {
    match k
    case 0 => case 1 => case 2 => case 3 => case 4 => case 5 => case 6 => case 7 => case 8 => case 9 => case 10 =>
    case 11 => case 12 => case 13 => case 14 => case 15 => case 16 => case 17 => case 18 => case 19 => case 20 =>
    case 21 => case 22 => case 23 => case 24 =>
  }

  lemma Increasing07(k: nat)
    requires k < 24
    ensures |Rows07()| == 25 && Below(Rows07()[k], Rows07()[k + 1])
  {
    match k
    case 0 => case 1 => case 2 => case 3 => case 4 => case 5 => case 6 => case 7 => case 8 => case 9 => case 10 =>
    case 11 => case 12 => case 13 => case 14 => case 15 => case 16 => case 17 => case 18 => case 19 => case 20 =>
    case 21 => case 22 => case 23 =>
  }

  lemma Complete07(w: u32)
    ensures |Rows07()| == 25 && Rows07()[0] == 0x0754_6132 && Below(Rows07()[24], 0x2354_6710)
    ensures !Below(w, 0x0754_6132) && Below(w, 0x2354_6710) && Permitted(w) ==> w in Rows07()
  {
  }

  lemma Permutes08(k: nat)
    requires k < 25
    ensures |Rows08()| == 25 && Permutation(Rows08()[k])
  {
    match k
    case 0 => case 1 => case 2 => case 3 => case 4 => case 5 => case 6 => case 7 => case 8 => case 9 => case 10 =>
    case 11 => case 12 => case 13 => case 14 => case 15 => case 16 => case 17 => case 18 => case 19 => case 20 =>
    case 21 => case 22 => case 23 => case 24 =>
  }

  lemma Places08(k: nat)
    requires k < 25
    ensures |Rows08()| == 25 && Placed(Rows08()[k])
  {
    match k
    case 0 => case 1 => case 2 => case 3 => case 4 => case 5 => case 6 => case 7 => case 8 => case 9 => case 10 =>
    case 11 => case 12 => case 13 => case 14 => case 15 => case 16 => case 17 => case 18 => case 19 => case 20 =>
    case 21 => case 22 => case 23 => case 24 =>
  }

  lemma Increasing08(k: nat)
    requires k < 24
    ensures |Rows08()| == 25 && Below(Rows08()[k], Rows08()[k + 1])
  {
    match k
    case 0 => case 1 => case 2 => case 3 => case 4 => case 5 => case 6 => case 7 => case 8 => case 9 => case 10 =>
    case 11 => case 12 => case 13 => case 14 => case 15 => case 16 => case 17 => case 18 => case 19 => case 20 =>
    case 21 => case 22 => case 23 =>
  }

  lemma Complete08(w: u32)
    ensures |Rows08()| == 25 && Rows08()[0] == 0x2354_6710 && Below(Rows08()[24], 0x2435_6710)
    ensures !Below(w, 0x2354_6710) && Below(w, 0x2435_6710) && Permitted(w) ==> w in Rows08()
  {
  }

  lemma Permutes09(k: nat)
    requires k < 25
    ensures |Rows09()| == 25 && Permutation(Rows09()[k])
  {
    match k
    case 0 => case 1 => case 2 => case 3 => case 4 => case 5 => case 6 => case 7 => case 8 => case 9 => case 10 =>
    case 11 => case 12 => case 13 => case 14 => case 15 => case 16 => case 17 => case 18 => case 19 => case 20 =>
    case 21 => case 22 => case 23 => case 24 =>
  }

  lemma Places09(k: nat)
    requires k < 25
    ensures |Rows09()| == 25 && Placed(Rows09()[k])
  {
    match k
    case 0 => case 1 => case 2 => case 3 => case 4 => case 5 => case 6 => case 7 => case 8 => case 9 => case 10 =>
    case 11 => case 12 => case 13 => case 14 => case 15 => case 16 => case 17 => case 18 => case 19 => case 20 =>
    case 21 => case 22 => case 23 => case 24 =>
  }

  lemma Increasing09(k: nat)
    requires k < 24
    ensures |Rows09()| == 25 && Below(Rows09()[k], Rows09()[k + 1])
  {
    match k
    case 0 => case 1 => case 2 => case 3 => case 4 => case 5 => case 6 => case 7 => case 8 => case 9 => case 10 =>
    case 11 => case 12 => case 13 => case 14 => case 15 => case 16 => case 17 => case 18 => case 19 => case 20 =>
    case 21 => case 22 => case 23 =>
  }

  lemma Complete09(w: u32)
    ensures |Rows09()| == 25 && Rows09()[0] == 0x2435_6710 && Below(Rows09()[24], 0x2461_5730)
    ensures !Below(w, 0x2435_6710) && Below(w, 0x2461_5730) && Permitted(w) ==> w in Rows09()
  {
  }

  lemma Permutes10(k: nat)
    requires k < 25
    ensures |Rows10()| == 25 && Permutation(Rows10()[k])
  {
    match k
    case 0 => case 1 => case 2 => case 3 => case 4 => case 5 => case 6 => case 7 => case 8 => case 9 => case 10 =>
    case 11 => case 12 => case 13 => case 14 => case 15 => case 16 => case 17 => case 18 => case 19 => case 20 =>
    case 21 => case 22 => case 23 => case 24 =>
  }

  lemma Places10(k: nat)
    requires k < 25
    ensures |Rows10()| == 25 && Placed(Rows10()[k])
  {
    match k
    case 0 => case 1 => case 2 => case 3 => case 4 => case 5 => case 6 => case 7 => case 8 => case 9 => case 10 =>
    case 11 => case 12 => case 13 => case 14 => case 15 => case 16 => case 17 => case 18 => case 19 => case 20 =>
    case 21 => case 22 => case 23 => case 24 =>
  }

  lemma Increasing10(k: nat)
    requires k < 24
    ensures |Rows10()| == 25 && Below(Rows10()[k], Rows10()[k + 1])
  {
    match k
    case 0 => case 1 => case 2 => case 3 => case 4 => case 5 => case 6 => case 7 => case 8 => case 9 => case 10 =>
    case 11 => case 12 => case 13 => case 14 => case 15 => case 16 => case 17 => case 18 => case 19 => case 20 =>
    case 21 => case 22 => case 23 =>
  }

  lemma Complete10(w: u32)
    ensures |Rows10()| == 25 && Rows10()[0] == 0x2461_5730 && Below(Rows10()[24], 0x2514_6730)
    ensures !Below(w, 0x2461_5730) && Below(w, 0x2514_6730) && Permitted(w) ==> w in Rows10()
  {
  }

  lemma Permutes11(k: nat)
    requires k < 25
    ensures |Rows11()| == 25 && Permutation(Rows11()[k])
  {
    match k
    case 0 => case 1 => case 2 => case 3 => case 4 => case 5 => case 6 => case 7 => case 8 => case 9 => case 10 =>
    case 11 => case 12 => case 13 => case 14 => case 15 => case 16 => case 17 => case 18 => case 19 => case 20 =>
    case 21 => case 22 => case 23 => case 24 =>
  }

  lemma Places11(k: nat)
    requires k < 25
    ensures |Rows11()| == 25 && Placed(Rows11()[k])
  {
    match k
    case 0 => case 1 => case 2 => case 3 => case 4 => case 5 => case 6 => case 7 => case 8 => case 9 => case 10 =>
    case 11 => case 12 => case 13 => case 14 => case 15 => case 16 => case 17 => case 18 => case 19 => case 20 =>
    case 21 => case 22 => case 23 => case 24 =>
  }

  lemma Increasing11(k: nat)
    requires k < 24
    ensures |Rows11()| == 25 && Below(Rows11()[k], Rows11()[k + 1])
  {
    match k
    case 0 => case 1 => case 2 => case 3 => case 4 => case 5 => case 6 => case 7 => case 8 => case 9 => case 10 =>
    case 11 => case 12 => case 13 => case 14 => case 15 => case 16 => case 17 => case 18 => case 19 => case 20 =>
    case 21 => case 22 => case 23 =>
  }

  lemma Complete11(w: u32)
    ensures |Rows11()| == 25 && Rows11()[0] == 0x2514_6730 && Below(Rows11()[24], 0x2564_7310)
    ensures !Below(w, 0x2514_6730) && Below(w, 0x2564_7310) && Permitted(w) ==> w in Rows11()
  {
  }

  lemma Permutes12(k: nat)
    requires k < 25
    ensures |Rows12()| == 25 && Permutation(Rows12()[k])
  {
    match k
    case 0 => case 1 => case 2 => case 3 => case 4 => case 5 => case 6 => case 7 => case 8 => case 9 => case 10 =>
    case 11 => case 12 => case 13 => case 14 => case 15 => case 16 => case 17 => case 18 => case 19 => case 20 =>
    case 21 => case 22 => case 23 => case 24 =>
  }

  lemma Places12(k: nat)
    requires k < 25
    ensures |Rows12()| == 25 && Placed(Rows12()[k])
  {
    match k
    case 0 => case 1 => case 2 => case 3 => case 4 => case 5 => case 6 => case 7 => case 8 => case 9 => case 10 =>
    case 11 => case 12 => case 13 => case 14 => case 15 => case 16 => case 17 => case 18 => case 19 => case 20 =>
    case 21 => case 22 => case 23 => case 24 =>
  }

  lemma Increasing12(k: nat)
    requires k < 24
    ensures |Rows12()| == 25 && Below(Rows12()[k], Rows12()[k + 1])
  {
    match k
    case 0 => case 1 => case 2 => case 3 => case 4 => case 5 => case 6 => case 7 => case 8 => case 9 => case 10 =>
    case 11 => case 12 => case 13 => case 14 => case 15 => case 16 => case 17 => case 18 => case 19 => case 20 =>
    case 21 => case 22 => case 23 =>
  }

  lemma Complete12(w: u32)
    ensures |Rows12()| == 25 && Rows12()[0] == 0x2564_7310 && Below(Rows12()[24], 0x2647_5130)
    ensures !Below(w, 0x2564_7310) && Below(w, 0x2647_5130) && Permitted(w) ==> w in Rows12()
  {
  }

  lemma Permutes13(k: nat)
    requires k < 25
    ensures |Rows13()| == 25 && Permutation(Rows13()[k])
  {
    match k
    case 0 => case 1 => case 2 => case 3 => case 4 => case 5 => case 6 => case 7 => case 8 => case 9 => case 10 =>
    case 11 => case 12 => case 13 => case 14 => case 15 => case 16 => case 17 => case 18 => case 19 => case 20 =>
    case 21 => case 22 => case 23 => case 24 =>
  }

  lemma Places13(k: nat)
    requires k < 25
    ensures |Rows13()| == 25 && Placed(Rows13()[k])
  {
    match k
    case 0 => case 1 => case 2 => case 3 => case 4 => case 5 => case 6 => case 7 => case 8 => case 9 => case 10 =>
    case 11 => case 12 => case 13 => case 14 => case 15 => case 16 => case 17 => case 18 => case 19 => case 20 =>
    case 21 => case 22 => case 23 => case 24 =>
  }

  lemma Increasing13(k: nat)
    requires k < 24
    ensures |Rows13()| == 25 && Below(Rows13()[k], Rows13()[k + 1])
  {
    match k
    case 0 => case 1 => case 2 => case 3 => case 4 => case 5 => case 6 => case 7 => case 8 => case 9 => case 10 =>
    case 11 => case 12 => case 13 => case 14 => case 15 => case 16 => case 17 => case 18 => case 19 => case 20 =>
    case 21 => case 22 => case 23 =>
  }

  lemma Complete13(w: u32)
    ensures |Rows13()| == 25 && Rows13()[0] == 0x2647_5130 && Below(Rows13()[24], 0x2746_1350)
    ensures !Below(w, 0x2647_5130) && Below(w, 0x2746_1350) && Permitted(w) ==> w in Rows13()
  {
  }

  lemma Permutes14(k: nat)
    requires k < 25
    ensures |Rows14()| == 25 && Permutation(Rows14()[k])
  {
    match k
    case 0 => case 1 => case 2 => case 3 => case 4 => case 5 => case 6 => case 7 => case 8 => case 9 => case 10 =>
    case 11 => case 12 => case 13 => case 14 => case 15 => case 16 => case 17 => case 18 => case 19 => case 20 =>
    case 21 => case 22 => case 23 => case 24 =>
  }

  lemma Places14(k: nat)
    requires k < 25
    ensures |Rows14()| == 25 && Placed(Rows14()[k])
  {
    match k
    case 0 => case 1 => case 2 => case 3 => case 4 => case 5 => case 6 => case 7 => case 8 => case 9 => case 10 =>
    case 11 => case 12 => case 13 => case 14 => case 15 => case 16 => case 17 => case 18 => case 19 => case 20 =>
    case 21 => case 22 => case 23 => case 24 =>
  }

  lemma Increasing14(k: nat)
    requires k < 24
    ensures |Rows14()| == 25 && Below(Rows14()[k], Rows14()[k + 1])
  {
    match k
    case 0 => case 1 => case 2 => case 3 => case 4 => case 5 => case 6 => case 7 => case 8 => case 9 => case 10 =>
    case 11 => case 12 => case 13 => case 14 => case 15 => case 16 => case 17 => case 18 => case 19 => case 20 =>
    case 21 => case 22 => case 23 =>
  }

  lemma Complete14(w: u32)
    ensures |Rows14()| == 25 && Rows14()[0] == 0x2746_1350 && Below(Rows14()[24], 0x4231_7650)
    ensures !Below(w, 0x2746_1350) && Below(w, 0x4231_7650) && Permitted(w) ==> w in Rows14()
  {
  }

  lemma Permutes15(k: nat)
    requires k < 25
    ensures |Rows15()| == 25 && Permutation(Rows15()[k])
  {
    match k
    case 0 => case 1 => case 2 => case 3 => case 4 => case 5 => case 6 => case 7 => case 8 => case 9 => case 10 =>
    case 11 => case 12 => case 13 => case 14 => case 15 => case 16 => case 17 => case 18 => case 19 => case 20 =>
    case 21 => case 22 => case 23 => case 24 =>
  }

  lemma Places15(k: nat)
    requires k < 25
    ensures |Rows15()| == 25 && Placed(Rows15()[k])
  {
    match k
    case 0 => case 1 => case 2 => case 3 => case 4 => case 5 => case 6 => case 7 => case 8 => case 9 => case 10 =>
    case 11 => case 12 => case 13 => case 14 => case 15 => case 16 => case 17 => case 18 => case 19 => case 20 =>
    case 21 => case 22 => case 23 => case 24 =>
  }

  lemma Increasing15(k: nat)
    requires k < 24
    ensures |Rows15()| == 25 && Below(Rows15()[k], Rows15()[k + 1])
  {
    match k
    case 0 => case 1 => case 2 => case 3 => case 4 => case 5 => case 6 => case 7 => case 8 => case 9 => case 10 =>
    case 11 => case 12 => case 13 => case 14 => case 15 => case 16 => case 17 => case 18 => case 19 => case 20 =>
    case 21 => case 22 => case 23 =>
  }

  lemma Complete15(w: u32)
    ensures |Rows15()| == 25 && Rows15()[0] == 0x4231_7650 && Below(Rows15()[24], 0x4257_6310)
    ensures !Below(w, 0x4231_7650) && Below(w, 0x4257_6310) && Permitted(w) ==> w in Rows15()
  {
  }

  lemma Permutes16(k: nat)
    requires k < 25
    ensures |Rows16()| == 25 && Permutation(Rows16()[k])
  {
    match k
    case 0 => case 1 => case 2 => case 3 => case 4 => case 5 => case 6 => case 7 => case 8 => case 9 => case 10 =>
    case 11 => case 12 => case 13 => case 14 => case 15 => case 16 => case 17 => case 18 => case 19 => case 20 =>
    case 21 => case 22 => case 23 => case 24 =>
  }

  lemma Places16(k: nat)
    requires k < 25
    ensures |Rows16()| == 25 && Placed(Rows16()[k])
  {
    match k
    case 0 => case 1 => case 2 => case 3 => case 4 => case 5 => case 6 => case 7 => case 8 => case 9 => case 10 =>
    case 11 => case 12 => case 13 => case 14 => case 15 => case 16 => case 17 => case 18 => case 19 => case 20 =>
    case 21 => case 22 => case 23 => case 24 =>
  }

  lemma Increasing16(k: nat)
    requires k < 24
    ensures |Rows16()| == 25 && Below(Rows16()[k], Rows16()[k + 1])
  {
    match k
    case 0 => case 1 => case 2 => case 3 => case 4 => case 5 => case 6 => case 7 => case 8 => case 9 => case 10 =>
    case 11 => case 12 => case 13 => case 14 => case 15 => case 16 => case 17 => case 18 => case 19 => case 20 =>
    case 21 => case 22 => case 23 =>
  }

  lemma Complete16(w: u32)
    ensures |Rows16()| == 25 && Rows16()[0] == 0x4257_6310 && Below(Rows16()[24], 0x4276_5310)
    ensures !Below(w, 0x4257_6310) && Below(w, 0x4276_5310) && Permitted(w) ==> w in Rows16()
  {
  }

  lemma Permutes17(k: nat)
    requires k < 25
    ensures |Rows17()| == 25 && Permutation(Rows17()[k])
  {
    match k
    case 0 => case 1 => case 2 => case 3 => case 4 => case 5 => case 6 => case 7 => case 8 => case 9 => case 10 =>
    case 11 => case 12 => case 13 => case 14 => case 15 => case 16 => case 17 => case 18 => case 19 => case 20 =>
    case 21 => case 22 => case 23 => case 24 =>
  }

  lemma Places17(k: nat)
    requires k < 25
    ensures |Rows17()| == 25 && Placed(Rows17()[k])
  {
    match k
    case 0 => case 1 => case 2 => case 3 => case 4 => case 5 => case 6 => case 7 => case 8 => case 9 => case 10 =>
    case 11 => case 12 => case 13 => case 14 => case 15 => case 16 => case 17 => case 18 => case 19 => case 20 =>
    case 21 => case 22 => case 23 => case 24 =>
  }

  lemma Increasing17(k: nat)
    requires k < 24
    ensures |Rows17()| == 25 && Below(Rows17()[k], Rows17()[k + 1])
  {
    match k
    case 0 => case 1 => case 2 => case 3 => case 4 => case 5 => case 6 => case 7 => case 8 => case 9 => case 10 =>
    case 11 => case 12 => case 13 => case 14 => case 15 => case 16 => case 17 => case 18 => case 19 => case 20 =>
    case 21 => case 22 => case 23 =>
  }

  lemma Complete17(w: u32)
    ensures |Rows17()| == 25 && Rows17()[0] == 0x4276_5310 && Below(Rows17()[24], 0x4536_1702)
    ensures !Below(w, 0x4276_5310) && Below(w, 0x4536_1702) && Permitted(w) ==> w in Rows17()
  {
  }

  lemma Permutes18(k: nat)
    requires k < 25
    ensures |Rows18()| == 25 && Permutation(Rows18()[k])
  {
    match k
    case 0 => case 1 => case 2 => case 3 => case 4 => case 5 => case 6 => case 7 => case 8 => case 9 => case 10 =>
    case 11 => case 12 => case 13 => case 14 => case 15 => case 16 => case 17 => case 18 => case 19 => case 20 =>
    case 21 => case 22 => case 23 => case 24 =>
  }

  lemma Places18(k: nat)
    requires k < 25
    ensures |Rows18()| == 25 && Placed(Rows18()[k])
  {
    match k
    case 0 => case 1 => case 2 => case 3 => case 4 => case 5 => case 6 => case 7 => case 8 => case 9 => case 10 =>
    case 11 => case 12 => case 13 => case 14 => case 15 => case 16 => case 17 => case 18 => case 19 => case 20 =>
    case 21 => case 22 => case 23 => case 24 =>
  }

  lemma Increasing18(k: nat)
    requires k < 24
    ensures |Rows18()| == 25 && Below(Rows18()[k], Rows18()[k + 1])
  {
    match k
    case 0 => case 1 => case 2 => case 3 => case 4 => case 5 => case 6 => case 7 => case 8 => case 9 => case 10 =>
    case 11 => case 12 => case 13 => case 14 => case 15 => case 16 => case 17 => case 18 => case 19 => case 20 =>
    case 21 => case 22 => case 23 =>
  }

  lemma Complete18(w: u32)
    ensures |Rows18()| == 25 && Rows18()[0] == 0x4536_1702 && Below(Rows18()[24], 0x4675_3102)
    ensures !Below(w, 0x4536_1702) && Below(w, 0x4675_3102) && Permitted(w) ==> w in Rows18()
  {
  }

  lemma Permutes19(k: nat)
    requires k < 25
    ensures |Rows19()| == 25 && Permutation(Rows19()[k])
  {
    match k
    case 0 => case 1 => case 2 => case 3 => case 4 => case 5 => case 6 => case 7 => case 8 => case 9 => case 10 =>
    case 11 => case 12 => case 13 => case 14 => case 15 => case 16 => case 17 => case 18 => case 19 => case 20 =>
    case 21 => case 22 => case 23 => case 24 =>
  }

  lemma Places19(k: nat)
    requires k < 25
    ensures |Rows19()| == 25 && Placed(Rows19()[k])
  {
    match k
    case 0 => case 1 => case 2 => case 3 => case 4 => case 5 => case 6 => case 7 => case 8 => case 9 => case 10 =>
    case 11 => case 12 => case 13 => case 14 => case 15 => case 16 => case 17 => case 18 => case 19 => case 20 =>
    case 21 => case 22 => case 23 => case 24 =>
  }

  lemma Increasing19(k: nat)
    requires k < 24
    ensures |Rows19()| == 25 && Below(Rows19()[k], Rows19()[k + 1])
  {
    match k
    case 0 => case 1 => case 2 => case 3 => case 4 => case 5 => case 6 => case 7 => case 8 => case 9 => case 10 =>
    case 11 => case 12 => case 13 => case 14 => case 15 => case 16 => case 17 => case 18 => case 19 => case 20 =>
    case 21 => case 22 => case 23 =>
  }

  lemma Complete19(w: u32)
    ensures |Rows19()| == 25 && Rows19()[0] == 0x4675_3102 && Below(Rows19()[24], 0x6241_5730)
    ensures !Below(w, 0x4675_3102) && Below(w, 0x6241_5730) && Permitted(w) ==> w in Rows19()
  {
  }

  lemma Permutes20(k: nat)
    requires k < 25
    ensures |Rows20()| == 25 && Permutation(Rows20()[k])
  {
    match k
    case 0 => case 1 => case 2 => case 3 => case 4 => case 5 => case 6 => case 7 => case 8 => case 9 => case 10 =>
    case 11 => case 12 => case 13 => case 14 => case 15 => case 16 => case 17 => case 18 => case 19 => case 20 =>
    case 21 => case 22 => case 23 => case 24 =>
  }

  lemma Places20(k: nat)
    requires k < 25
    ensures |Rows20()| == 25 && Placed(Rows20()[k])
  {
    match k
    case 0 => case 1 => case 2 => case 3 => case 4 => case 5 => case 6 => case 7 => case 8 => case 9 => case 10 =>
    case 11 => case 12 => case 13 => case 14 => case 15 => case 16 => case 17 => case 18 => case 19 => case 20 =>
    case 21 => case 22 => case 23 => case 24 =>
  }

  lemma Increasing20(k: nat)
    requires k < 24
    ensures |Rows20()| == 25 && Below(Rows20()[k], Rows20()[k + 1])
  {
    match k
    case 0 => case 1 => case 2 => case 3 => case 4 => case 5 => case 6 => case 7 => case 8 => case 9 => case 10 =>
    case 11 => case 12 => case 13 => case 14 => case 15 => case 16 => case 17 => case 18 => case 19 => case 20 =>
    case 21 => case 22 => case 23 =>
  }

  lemma Complete20(w: u32)
    ensures |Rows20()| == 25 && Rows20()[0] == 0x6241_5730 && Below(Rows20()[24], 0x6345_7102)
    ensures !Below(w, 0x6241_5730) && Below(w, 0x6345_7102) && Permitted(w) ==> w in Rows20()
  {
  }

  lemma Permutes21(k: nat)
    requires k < 25
    ensures |Rows21()| == 25 && Permutation(Rows21()[k])
  {
    match k
    case 0 => case 1 => case 2 => case 3 => case 4 => case 5 => case 6 => case 7 => case 8 => case 9 => case 10 =>
    case 11 => case 12 => case 13 => case 14 => case 15 => case 16 => case 17 => case 18 => case 19 => case 20 =>
    case 21 => case 22 => case 23 => case 24 =>
  }

  lemma Places21(k: nat)
    requires k < 25
    ensures |Rows21()| == 25 && Placed(Rows21()[k])
  {
    match k
    case 0 => case 1 => case 2 => case 3 => case 4 => case 5 => case 6 => case 7 => case 8 => case 9 => case 10 =>
    case 11 => case 12 => case 13 => case 14 => case 15 => case 16 => case 17 => case 18 => case 19 => case 20 =>
    case 21 => case 22 => case 23 => case 24 =>
  }

  lemma Increasing21(k: nat)
    requires k < 24
    ensures |Rows21()| == 25 && Below(Rows21()[k], Rows21()[k + 1])
  {
    match k
    case 0 => case 1 => case 2 => case 3 => case 4 => case 5 => case 6 => case 7 => case 8 => case 9 => case 10 =>
    case 11 => case 12 => case 13 => case 14 => case 15 => case 16 => case 17 => case 18 => case 19 => case 20 =>
    case 21 => case 22 => case 23 =>
  }

  lemma Complete21(w: u32)
    ensures |Rows21()| == 25 && Rows21()[0] == 0x6345_7102 && Below(Rows21()[24], 0x6547_1302)
    ensures !Below(w, 0x6345_7102) && Below(w, 0x6547_1302) && Permitted(w) ==> w in Rows21()
  {
  }

  lemma Permutes22(k: nat)
    requires k < 25
    ensures |Rows22()| == 25 && Permutation(Rows22()[k])
  {
    match k
    case 0 => case 1 => case 2 => case 3 => case 4 => case 5 => case 6 => case 7 => case 8 => case 9 => case 10 =>
    case 11 => case 12 => case 13 => case 14 => case 15 => case 16 => case 17 => case 18 => case 19 => case 20 =>
    case 21 => case 22 => case 23 => case 24 =>
  }

  lemma Places22(k: nat)
    requires k < 25
    ensures |Rows22()| == 25 && Placed(Rows22()[k])
  {
    match k
    case 0 => case 1 => case 2 => case 3 => case 4 => case 5 => case 6 => case 7 => case 8 => case 9 => case 10 =>
    case 11 => case 12 => case 13 => case 14 => case 15 => case 16 => case 17 => case 18 => case 19 => case 20 =>
    case 21 => case 22 => case 23 => case 24 =>
  }

  lemma Increasing22(k: nat)
    requires k < 24
    ensures |Rows22()| == 25 && Below(Rows22()[k], Rows22()[k + 1])
  {
    match k
    case 0 => case 1 => case 2 => case 3 => case 4 => case 5 => case 6 => case 7 => case 8 => case 9 => case 10 =>
    case 11 => case 12 => case 13 => case 14 => case 15 => case 16 => case 17 => case 18 => case 19 => case 20 =>
    case 21 => case 22 => case 23 =>
  }

  lemma Complete22(w: u32)
    ensures |Rows22()| == 25 && Rows22()[0] == 0x6547_1302 && Below(Rows22()[24], 0x7246_3150)
    ensures !Below(w, 0x6547_1302) && Below(w, 0x7246_3150) && Permitted(w) ==> w in Rows22()
  {
  }

  lemma Permutes23(k: nat)
    requires k < 25
    ensures |Rows23()| == 25 && Permutation(Rows23()[k])
  {
    match k
    case 0 => case 1 => case 2 => case 3 => case 4 => case 5 => case 6 => case 7 => case 8 => case 9 => case 10 =>
    case 11 => case 12 => case 13 => case 14 => case 15 => case 16 => case 17 => case 18 => case 19 => case 20 =>
    case 21 => case 22 => case 23 => case 24 =>
  }

  lemma Places23(k: nat)
    requires k < 25
    ensures |Rows23()| == 25 && Placed(Rows23()[k])
  {
    match k
    case 0 => case 1 => case 2 => case 3 => case 4 => case 5 => case 6 => case 7 => case 8 => case 9 => case 10 =>
    case 11 => case 12 => case 13 => case 14 => case 15 => case 16 => case 17 => case 18 => case 19 => case 20 =>
    case 21 => case 22 => case 23 => case 24 =>
  }

  lemma Increasing23(k: nat)
    requires k < 24
    ensures |Rows23()| == 25 && Below(Rows23()[k], Rows23()[k + 1])
  {
    match k
    case 0 => case 1 => case 2 => case 3 => case 4 => case 5 => case 6 => case 7 => case 8 => case 9 => case 10 =>
    case 11 => case 12 => case 13 => case 14 => case 15 => case 16 => case 17 => case 18 => case 19 => case 20 =>
    case 21 => case 22 => case 23 =>
  }

  lemma Complete23(w: u32)
    ensures |Rows23()| == 25 && Rows23()[0] == 0x7246_3150 && Below(Rows23()[24], 0x7436_5102)
    ensures !Below(w, 0x7246_3150) && Below(w, 0x7436_5102) && Permitted(w) ==> w in Rows23()
  {
  }

  lemma Permutes24(k: nat)
    requires k < 25
    ensures |Rows24()| == 25 && Permutation(Rows24()[k])
  {
    match k
    case 0 => case 1 => case 2 => case 3 => case 4 => case 5 => case 6 => case 7 => case 8 => case 9 => case 10 =>
    case 11 => case 12 => case 13 => case 14 => case 15 => case 16 => case 17 => case 18 => case 19 => case 20 =>
    case 21 => case 22 => case 23 => case 24 =>
  }

  lemma Places24(k: nat)
    requires k < 25
    ensures |Rows24()| == 25 && Placed(Rows24()[k])
  {
    match k
    case 0 => case 1 => case 2 => case 3 => case 4 => case 5 => case 6 => case 7 => case 8 => case 9 => case 10 =>
    case 11 => case 12 => case 13 => case 14 => case 15 => case 16 => case 17 => case 18 => case 19 => case 20 =>
    case 21 => case 22 => case 23 => case 24 =>
  }

  lemma Increasing24(k: nat)
    requires k < 24
    ensures |Rows24()| == 25 && Below(Rows24()[k], Rows24()[k + 1])
  {
    match k
    case 0 => case 1 => case 2 => case 3 => case 4 => case 5 => case 6 => case 7 => case 8 => case 9 => case 10 =>
    case 11 => case 12 => case 13 => case 14 => case 15 => case 16 => case 17 => case 18 => case 19 => case 20 =>
    case 21 => case 22 => case 23 =>
  }

  lemma Complete24(w: u32)
    ensures |Rows24()| == 25 && Rows24()[0] == 0x7436_5102 && Below(Rows24()[24], 0x8000_0000)
    ensures !Below(w, 0x7436_5102) && Below(w, 0x8000_0000) && Permitted(w) ==> w in Rows24()
  {
  }

  lemma BlockPermitted(c: nat, k: nat)
    requires c < 25 && k < 25
    ensures |Rows(c)| == 25 && Permitted(Rows(c)[k])
  {
    hide Rows00, Rows01, Rows02, Rows03, Rows04, Rows05, Rows06, Rows07, Rows08, Rows09, Rows10, Rows11, Rows12;
    hide Rows13, Rows14, Rows15, Rows16, Rows17, Rows18, Rows19, Rows20, Rows21, Rows22, Rows23, Rows24;
    hide Permutation, Placed, Below;
    match c
    case 0 => Permutes00(k); Places00(k); case 1 => Permutes01(k); Places01(k);
    case 2 => Permutes02(k); Places02(k); case 3 => Permutes03(k); Places03(k);
    case 4 => Permutes04(k); Places04(k); case 5 => Permutes05(k); Places05(k);
    case 6 => Permutes06(k); Places06(k); case 7 => Permutes07(k); Places07(k);
    case 8 => Permutes08(k); Places08(k); case 9 => Permutes09(k); Places09(k);
    case 10 => Permutes10(k); Places10(k); case 11 => Permutes11(k); Places11(k);
    case 12 => Permutes12(k); Places12(k); case 13 => Permutes13(k); Places13(k);
    case 14 => Permutes14(k); Places14(k); case 15 => Permutes15(k); Places15(k);
    case 16 => Permutes16(k); Places16(k); case 17 => Permutes17(k); Places17(k);
    case 18 => Permutes18(k); Places18(k); case 19 => Permutes19(k); Places19(k);
    case 20 => Permutes20(k); Places20(k); case 21 => Permutes21(k); Places21(k);
    case 22 => Permutes22(k); Places22(k); case 23 => Permutes23(k); Places23(k);
    case 24 => Permutes24(k); Places24(k);
  }

  lemma BlockIncreasing(c: nat, k: nat)
    requires c < 25 && k < 24
    ensures |Rows(c)| == 25 && Below(Rows(c)[k], Rows(c)[k + 1])
  {
    hide Rows00, Rows01, Rows02, Rows03, Rows04, Rows05, Rows06, Rows07, Rows08, Rows09, Rows10, Rows11, Rows12;
    hide Rows13, Rows14, Rows15, Rows16, Rows17, Rows18, Rows19, Rows20, Rows21, Rows22, Rows23, Rows24;
    hide Permitted, Below;
    match c
    case 0 => Increasing00(k); case 1 => Increasing01(k); case 2 => Increasing02(k);
    case 3 => Increasing03(k); case 4 => Increasing04(k);
    case 5 => Increasing05(k); case 6 => Increasing06(k); case 7 => Increasing07(k);
    case 8 => Increasing08(k); case 9 => Increasing09(k);
    case 10 => Increasing10(k); case 11 => Increasing11(k); case 12 => Increasing12(k);
    case 13 => Increasing13(k); case 14 => Increasing14(k);
    case 15 => Increasing15(k); case 16 => Increasing16(k); case 17 => Increasing17(k);
    case 18 => Increasing18(k); case 19 => Increasing19(k);
    case 20 => Increasing20(k); case 21 => Increasing21(k); case 22 => Increasing22(k);
    case 23 => Increasing23(k); case 24 => Increasing24(k);
  }

  lemma BlockComplete(c: nat, w: u32)
    requires c < 25
    ensures hide Rows, Start, Below; |Rows(c)| == 25 && Rows(c)[0] == Start(c) && Below(Rows(c)[24], Start(c + 1))
    ensures hide Rows, Start, Permitted, Below;
            !Below(w, Start(c)) && Below(w, Start(c + 1)) && Permitted(w) ==> w in Rows(c)
  {
    hide Rows00, Rows01, Rows02, Rows03, Rows04, Rows05, Rows06, Rows07, Rows08, Rows09, Rows10, Rows11, Rows12;
    hide Rows13, Rows14, Rows15, Rows16, Rows17, Rows18, Rows19, Rows20, Rows21, Rows22, Rows23, Rows24;
    hide Permitted, Below;
    match c
    case 0 => Complete00(w); case 1 => Complete01(w); case 2 => Complete02(w);
    case 3 => Complete03(w); case 4 => Complete04(w);
    case 5 => Complete05(w); case 6 => Complete06(w); case 7 => Complete07(w);
    case 8 => Complete08(w); case 9 => Complete09(w);
    case 10 => Complete10(w); case 11 => Complete11(w); case 12 => Complete12(w);
    case 13 => Complete13(w); case 14 => Complete14(w);
    case 15 => Complete15(w); case 16 => Complete16(w); case 17 => Complete17(w);
    case 18 => Complete18(w); case 19 => Complete19(w);
    case 20 => Complete20(w); case 21 => Complete21(w); case 22 => Complete22(w);
    case 23 => Complete23(w); case 24 => Complete24(w);
  }

  // ----- the table -----

  function SourceRow(n: nat): u32
    requires n < NUM_SRC_PERM
  {
    hide Rows, Permitted;
    BlockPermitted(n / 25, n % 25);
    Rows(n / 25)[n % 25]
  }

  /** Every row of the table is permitted. */
  lemma RowPermitted(n: nat)
    requires n < NUM_SRC_PERM
    ensures Permitted(SourceRow(n))
  {
    hide Rows, Permitted;
    BlockPermitted(n / 25, n % 25);
  }

  /** The block whose interval holds w. */
  lemma {:induction false} FindBlock(w: u32, c: nat) returns (b: nat)
    requires c <= 25 && !Below(w, Start(c)) && Below(w, Start(25))
    ensures c <= b < 25 && !Below(w, Start(b)) && Below(w, Start(b + 1))
    decreases 25 - c
  {
    hide Start, Below;
    if Below(w, Start(c + 1)) {
      b := c;
    } else {
      b := FindBlock(w, c + 1);
    }
  }

  lemma PermittedRange(w: u32)
    requires Permitted(w)
    ensures !Below(w, Start(0)) && Below(w, Start(25))
  {
  }

  /** Every permitted permutation is a row of the table. */
  lemma PermittedRow(w: u32) returns (n: nat)
    requires Permitted(w)
    ensures n < NUM_SRC_PERM && SourceRow(n) == w
  {
    hide Rows, Start, Permitted, Below;
    PermittedRange(w);
    var c := FindBlock(w, 0);
    BlockComplete(c, w);
    var k :| 0 <= k < |Rows(c)| && Rows(c)[k] == w;
    n := 25 * c + k;
    assert n / 25 == c && n % 25 == k;
  }

  lemma NextRow(n: nat)
    requires n + 1 < NUM_SRC_PERM
    ensures hide SourceRow, Below; Below(SourceRow(n), SourceRow(n + 1))
  {
    hide Rows, Start, Permitted, Below;
    var c, k := n / 25, n % 25;
    if k == 24 {
      assert (n + 1) / 25 == c + 1 && (n + 1) % 25 == 0;
      BlockComplete(c, 0);
      BlockComplete(c + 1, 0);
    } else {
      assert (n + 1) / 25 == c && (n + 1) % 25 == k + 1;
      BlockIncreasing(c, k);
    }
  }

  /** The rows increase strictly, so all 625 are distinct. */
  lemma {:induction false} RowsIncrease(i: nat, j: nat)
    requires i < j < NUM_SRC_PERM
    ensures SourceRow(i) < SourceRow(j)
    decreases j
  {
    hide SourceRow;
    NextRow(j - 1);
    if i < j - 1 {
      RowsIncrease(i, j - 1);
    }
  }

  // ----- the digits of a permitted permutation -----

  lemma DigitsBelow8(w: u32, i: nat)
    requires Permutation(w) && i < 8
    ensures hide Digit; Digit(w, i) < 8
  {
    match i case 0 => case 1 => case 2 => case 3 => case 4 => case 5 => case 6 => case 7 =>
  }

  lemma DigitsDiffer(w: u32, i: nat, j: nat)
    requires Permutation(w) && i < j < 8
    ensures Digit(w, i) != Digit(w, j)
  {
    hide Digit, OneHot;
    var a, b, c, d := Digit(w, 0), Digit(w, 1), Digit(w, 2), Digit(w, 3);
    var e, f, g, h := Digit(w, 4), Digit(w, 5), Digit(w, 6), Digit(w, 7);
    match i
    case 0 => FirstDiffers(a, b, c, d, e, f, g, h);
    case 1 => SecondDiffers(a, b, c, d, e, f, g, h);
    case 2 => ThirdDiffers(a, b, c, d, e, f, g, h);
    case _ => RestDiffer(a, b, c, d, e, f, g, h);
  }

  /** Row n read digit by digit: a permutation of 0..7. */
  lemma RowDigits(n: nat, i: nat, j: nat)
    requires n < NUM_SRC_PERM && i < j < 8
    ensures hide Digit, SourceRow;
            Digit(SourceRow(n), i) < 8 && Digit(SourceRow(n), j) < 8 && Digit(SourceRow(n), i) != Digit(SourceRow(n), j)
  {
    hide Digit, SourceRow, Permutation;
    RowPermitted(n);
    DigitsBelow8(SourceRow(n), i);
    DigitsBelow8(SourceRow(n), j);
    DigitsDiffer(SourceRow(n), i, j);
  }

  lemma FirstDiffers(a: u32, b: u32, c: u32, d: u32, e: u32, f: u32, g: u32, h: u32)
    requires a < 16 && b < 16 && c < 16 && d < 16 && e < 16 && f < 16 && g < 16 && h < 16
    requires OneHot(a) | OneHot(b) | OneHot(c) | OneHot(d) | OneHot(e) | OneHot(f) | OneHot(g) | OneHot(h) == 0xff
    ensures a != b && a != c && a != d && a != e && a != f && a != g && a != h
  {
  }

  lemma SecondDiffers(a: u32, b: u32, c: u32, d: u32, e: u32, f: u32, g: u32, h: u32)
    requires a < 16 && b < 16 && c < 16 && d < 16 && e < 16 && f < 16 && g < 16 && h < 16
    requires OneHot(a) | OneHot(b) | OneHot(c) | OneHot(d) | OneHot(e) | OneHot(f) | OneHot(g) | OneHot(h) == 0xff
    ensures b != c && b != d && b != e && b != f && b != g && b != h
  {
  }

  lemma ThirdDiffers(a: u32, b: u32, c: u32, d: u32, e: u32, f: u32, g: u32, h: u32)
    requires a < 16 && b < 16 && c < 16 && d < 16 && e < 16 && f < 16 && g < 16 && h < 16
    requires OneHot(a) | OneHot(b) | OneHot(c) | OneHot(d) | OneHot(e) | OneHot(f) | OneHot(g) | OneHot(h) == 0xff
    ensures c != d && c != e && c != f && c != g && c != h
  {
  }

  lemma RestDiffer(a: u32, b: u32, c: u32, d: u32, e: u32, f: u32, g: u32, h: u32)
    requires a < 16 && b < 16 && c < 16 && d < 16 && e < 16 && f < 16 && g < 16 && h < 16
    requires OneHot(a) | OneHot(b) | OneHot(c) | OneHot(d) | OneHot(e) | OneHot(f) | OneHot(g) | OneHot(h) == 0xff
    ensures d != e && d != f && d != g && d != h && e != f && e != g && e != h && f != g && f != h && g != h
  {
  }

  /** What the compilers rely on: nothing reads its own destination, and results that a
      compiler delays or hoists are not read while they are pending. */
  lemma HazardRules(w: u32)
    requires Permitted(w)
    ensures Digit(w, 1) != 0 && Digit(w, 1) != 1
    ensures Digit(w, 2) != 0 && Digit(w, 2) != 2
    ensures Digit(w, 3) != 0 && Digit(w, 3) != 2 && Digit(w, 3) != 3
    ensures Digit(w, 4) != 4
    ensures Digit(w, 5) != 4 && Digit(w, 5) != 5
    ensures Digit(w, 6) != 6
    ensures Digit(w, 7) != 6 && Digit(w, 7) != 7
  {
    hide Digit, Permutation;
  }
}
