/** The blue-noise ditherer of BlueNoise.cpp: a second pass over an already
    quantized image that perturbs each pixel away from its palette colour by a
    tiling noise pattern and resolves it again. */
module BlueNoise {
  import opened Colors

  /** Half of a row of the tile. */
  type HalfRow = s: seq<int> | |s| == 32 witness seq(32, _ => 0)

  /** One row of the 64 x 64 tile. */
  type NoiseRow = s: seq<int> | |s| == 64 witness seq(64, _ => 0)

  type NoiseTable = s: seq<int> | |s| == 4096 witness seq(4096, _ => 0)

  /** `RAW_BLUE_NOISE`: a 64 x 64 tile of blue noise (signed chars), written
      here in blocks of eight rows, each row in two halves. */
  const RAW_BLUE_NOISE: NoiseTable :=
    NOISE_BLOCK_0 + NOISE_BLOCK_1 + NOISE_BLOCK_2 + NOISE_BLOCK_3 + NOISE_BLOCK_4 + NOISE_BLOCK_5 + NOISE_BLOCK_6 + NOISE_BLOCK_7

  /** Eight rows of the tile. */
  type NoiseBlock = s: seq<int> | |s| == 512 witness seq(512, _ => 0)

  const NOISE_BLOCK_0: NoiseBlock :=
    NOISE_ROW_00 + NOISE_ROW_01 + NOISE_ROW_02 + NOISE_ROW_03 + NOISE_ROW_04 + NOISE_ROW_05 + NOISE_ROW_06 + NOISE_ROW_07
  const NOISE_BLOCK_1: NoiseBlock :=
    NOISE_ROW_08 + NOISE_ROW_09 + NOISE_ROW_10 + NOISE_ROW_11 + NOISE_ROW_12 + NOISE_ROW_13 + NOISE_ROW_14 + NOISE_ROW_15
  const NOISE_BLOCK_2: NoiseBlock :=
    NOISE_ROW_16 + NOISE_ROW_17 + NOISE_ROW_18 + NOISE_ROW_19 + NOISE_ROW_20 + NOISE_ROW_21 + NOISE_ROW_22 + NOISE_ROW_23
  const NOISE_BLOCK_3: NoiseBlock :=
    NOISE_ROW_24 + NOISE_ROW_25 + NOISE_ROW_26 + NOISE_ROW_27 + NOISE_ROW_28 + NOISE_ROW_29 + NOISE_ROW_30 + NOISE_ROW_31
  const NOISE_BLOCK_4: NoiseBlock :=
    NOISE_ROW_32 + NOISE_ROW_33 + NOISE_ROW_34 + NOISE_ROW_35 + NOISE_ROW_36 + NOISE_ROW_37 + NOISE_ROW_38 + NOISE_ROW_39
  const NOISE_BLOCK_5: NoiseBlock :=
    NOISE_ROW_40 + NOISE_ROW_41 + NOISE_ROW_42 + NOISE_ROW_43 + NOISE_ROW_44 + NOISE_ROW_45 + NOISE_ROW_46 + NOISE_ROW_47
  const NOISE_BLOCK_6: NoiseBlock :=
    NOISE_ROW_48 + NOISE_ROW_49 + NOISE_ROW_50 + NOISE_ROW_51 + NOISE_ROW_52 + NOISE_ROW_53 + NOISE_ROW_54 + NOISE_ROW_55
  const NOISE_BLOCK_7: NoiseBlock :=
    NOISE_ROW_56 + NOISE_ROW_57 + NOISE_ROW_58 + NOISE_ROW_59 + NOISE_ROW_60 + NOISE_ROW_61 + NOISE_ROW_62 + NOISE_ROW_63

  const NOISE_ROW_00: NoiseRow := NOISE_00A + NOISE_00B
  const NOISE_ROW_01: NoiseRow := NOISE_01A + NOISE_01B
  const NOISE_ROW_02: NoiseRow := NOISE_02A + NOISE_02B
  const NOISE_ROW_03: NoiseRow := NOISE_03A + NOISE_03B
  const NOISE_ROW_04: NoiseRow := NOISE_04A + NOISE_04B
  const NOISE_ROW_05: NoiseRow := NOISE_05A + NOISE_05B
  const NOISE_ROW_06: NoiseRow := NOISE_06A + NOISE_06B
  const NOISE_ROW_07: NoiseRow := NOISE_07A + NOISE_07B
  const NOISE_ROW_08: NoiseRow := NOISE_08A + NOISE_08B
  const NOISE_ROW_09: NoiseRow := NOISE_09A + NOISE_09B
  const NOISE_ROW_10: NoiseRow := NOISE_10A + NOISE_10B
  const NOISE_ROW_11: NoiseRow := NOISE_11A + NOISE_11B
  const NOISE_ROW_12: NoiseRow := NOISE_12A + NOISE_12B
  const NOISE_ROW_13: NoiseRow := NOISE_13A + NOISE_13B
  const NOISE_ROW_14: NoiseRow := NOISE_14A + NOISE_14B
  const NOISE_ROW_15: NoiseRow := NOISE_15A + NOISE_15B
  const NOISE_ROW_16: NoiseRow := NOISE_16A + NOISE_16B
  const NOISE_ROW_17: NoiseRow := NOISE_17A + NOISE_17B
  const NOISE_ROW_18: NoiseRow := NOISE_18A + NOISE_18B
  const NOISE_ROW_19: NoiseRow := NOISE_19A + NOISE_19B
  const NOISE_ROW_20: NoiseRow := NOISE_20A + NOISE_20B
  const NOISE_ROW_21: NoiseRow := NOISE_21A + NOISE_21B
  const NOISE_ROW_22: NoiseRow := NOISE_22A + NOISE_22B
  const NOISE_ROW_23: NoiseRow := NOISE_23A + NOISE_23B
  const NOISE_ROW_24: NoiseRow := NOISE_24A + NOISE_24B
  const NOISE_ROW_25: NoiseRow := NOISE_25A + NOISE_25B
  const NOISE_ROW_26: NoiseRow := NOISE_26A + NOISE_26B
  const NOISE_ROW_27: NoiseRow := NOISE_27A + NOISE_27B
  const NOISE_ROW_28: NoiseRow := NOISE_28A + NOISE_28B
  const NOISE_ROW_29: NoiseRow := NOISE_29A + NOISE_29B
  const NOISE_ROW_30: NoiseRow := NOISE_30A + NOISE_30B
  const NOISE_ROW_31: NoiseRow := NOISE_31A + NOISE_31B
  const NOISE_ROW_32: NoiseRow := NOISE_32A + NOISE_32B
  const NOISE_ROW_33: NoiseRow := NOISE_33A + NOISE_33B
  const NOISE_ROW_34: NoiseRow := NOISE_34A + NOISE_34B
  const NOISE_ROW_35: NoiseRow := NOISE_35A + NOISE_35B
  const NOISE_ROW_36: NoiseRow := NOISE_36A + NOISE_36B
  const NOISE_ROW_37: NoiseRow := NOISE_37A + NOISE_37B
  const NOISE_ROW_38: NoiseRow := NOISE_38A + NOISE_38B
  const NOISE_ROW_39: NoiseRow := NOISE_39A + NOISE_39B
  const NOISE_ROW_40: NoiseRow := NOISE_40A + NOISE_40B
  const NOISE_ROW_41: NoiseRow := NOISE_41A + NOISE_41B
  const NOISE_ROW_42: NoiseRow := NOISE_42A + NOISE_42B
  const NOISE_ROW_43: NoiseRow := NOISE_43A + NOISE_43B
  const NOISE_ROW_44: NoiseRow := NOISE_44A + NOISE_44B
  const NOISE_ROW_45: NoiseRow := NOISE_45A + NOISE_45B
  const NOISE_ROW_46: NoiseRow := NOISE_46A + NOISE_46B
  const NOISE_ROW_47: NoiseRow := NOISE_47A + NOISE_47B
  const NOISE_ROW_48: NoiseRow := NOISE_48A + NOISE_48B
  const NOISE_ROW_49: NoiseRow := NOISE_49A + NOISE_49B
  const NOISE_ROW_50: NoiseRow := NOISE_50A + NOISE_50B
  const NOISE_ROW_51: NoiseRow := NOISE_51A + NOISE_51B
  const NOISE_ROW_52: NoiseRow := NOISE_52A + NOISE_52B
  const NOISE_ROW_53: NoiseRow := NOISE_53A + NOISE_53B
  const NOISE_ROW_54: NoiseRow := NOISE_54A + NOISE_54B
  const NOISE_ROW_55: NoiseRow := NOISE_55A + NOISE_55B
  const NOISE_ROW_56: NoiseRow := NOISE_56A + NOISE_56B
  const NOISE_ROW_57: NoiseRow := NOISE_57A + NOISE_57B
  const NOISE_ROW_58: NoiseRow := NOISE_58A + NOISE_58B
  const NOISE_ROW_59: NoiseRow := NOISE_59A + NOISE_59B
  const NOISE_ROW_60: NoiseRow := NOISE_60A + NOISE_60B
  const NOISE_ROW_61: NoiseRow := NOISE_61A + NOISE_61B
  const NOISE_ROW_62: NoiseRow := NOISE_62A + NOISE_62B
  const NOISE_ROW_63: NoiseRow := NOISE_63A + NOISE_63B

  const NOISE_00A: HalfRow := [
    -63, 119, 75, 49, -74, 21, -32, 7, -6, -66, -19, 78, -101, 89, 24, -25,
    122, -50, -6, 100, -125, -45, 105, 32, -83, 114, -20, -88, -3, -35, 73, -93]

  const NOISE_00B: HalfRow := [
    103, 59, 126, 79, 19, -115, -41, 6, 118, 69, 49, 96, -69, -36, 4, 41,
    -79, 55, 12, -125, -70, 37, -101, 76, -116, -45, 68, -124, 31, 55, -36, 69]

  const NOISE_01A: HalfRow := [
    42, 12, -104, -1, -19, 127, -93, 82, -49, 65, 50, 13, 40, -117, -59, 2,
    54, -101, 19, -81, 63, 42, -62, -115, 59, -52, -128, 69, 33, -62, 18, 44]

  const NOISE_01B: HalfRow := [
    -24, 6, -70, -31, 54, 104, 34, -13, -94, -55, -126, 110, 34, 60, -122, 115,
    90, -97, -59, 65, 116, -41, 18, 2, 120, 44, 97, -24, 107, -107, 90, -11]

  const NOISE_02A: HalfRow := [
    108, -79, -41, 27, 100, -59, -113, 38, 107, -104, -80, -42, -9, 110, 67, -38,
    -122, 93, 37, -23, -108, 127, -8, 18, 83, 1, -40, 108, -107, -76, 117, -111]

  const NOISE_02B: HalfRow := [
    -55, 30, -104, -121, -2, -85, -64, 62, 90, -33, 0, -105, 79, -82, -15, 17,
    -43, -26, 101, -9, -88, -22, 94, -62, -79, 24, -97, -2, -82, 17, -71, -118]

  const NOISE_03A: HalfRow := [
    63, -24, 85, -125, -86, 69, 54, -24, 19, -127, 95, 124, -68, -94, 33, -83,
    116, -67, 80, 5, -39, 71, -91, -72, 117, -99, 46, 24, -14, 62, 84, -1]

  const NOISE_03B: HalfRow := [
    51, 110, 88, 67, 118, -19, -102, 112, 42, -77, 27, -20, -47, 121, -100, 67,
    -68, 47, 25, -109, 80, 49, -113, 59, -14, 83, -35, -56, 50, 75, -46, 34]

  const NOISE_04A: HalfRow := [
    -100, -56, 51, 114, 32, -45, -8, -73, 86, 0, 28, -28, 52, 8, 86, -22,
    16, -11, -98, 103, -57, 27, 49, -22, -34, 96, -81, -59, 101, -29, -45, -124]

  const NOISE_04B: HalfRow := [
    -83, -14, -41, 13, -56, 28, 75, -49, 11, -115, 104, 53, 9, -61, 31, 84,
    -118, 2, 126, -51, -76, 32, 107, -48, -123, 113, 64, -110, 126, -17, 99, 3]

  const NOISE_05A: HalfRow := [
    120, 19, -13, -69, 5, 79, -102, 120, -37, -61, -97, 74, -115, -50, 101, -112,
    73, -46, 55, -76, 112, -110, 93, -121, 11, 35, 74, -116, 6, 32, 36, 96]

  const NOISE_05B: HalfRow := [
    70, -65, -95, 42, -77, 96, -27, -109, -12, 83, -67, 70, -92, 98, -7, -35,
    108, -90, 72, -31, 13, -5, -95, -26, 11, 37, -70, 5, 29, -124, -32, -87]

  const NOISE_06A: HalfRow := [
    71, -115, 91, -30, -112, 99, 16, -89, 61, 44, 109, -15, -75, 61, -2, -61,
    45, 28, -124, -27, 13, -14, 77, -65, 63, -49, -10, 113, 57, -71, 15, 120]

  const NOISE_06B: HalfRow := [
    -26, 26, 101, -7, -128, 50, -90, 22, 58, 126, -39, -124, -27, 45, -111, 58,
    -74, -16, 39, -128, 87, 119, -65, 75, 99, -86, -43, 92, -94, 79, -64, 45]

  const NOISE_07A: HalfRow := [
    -48, -77, 58, -91, 43, -55, -18, 33, -119, 92, -47, 12, 36, 113, -103, -33,
    125, -90, 87, 66, 42, -85, -43, -3, 122, -107, -88, 21, -20, 80, -52, -107]

  const NOISE_07B: HalfRow := [
    2, -116, 55, 124, -34, 82, 113, 1, -60, -84, 37, -1, 114, -81, 24, -46,
    14, 95, -57, -100, 51, -42, 61, 22, -104, 48, -6, -24, 56, 13, 111, -8]

  const NOISE_08A: HalfRow := [
    97, 7, -39, 125, -3, 65, 115, -68, -31, -5, -84, -123, 84, -24, 20, -78,
    95, 7, -8, -54, 120, -99, 101, 30, -75, 49, 86, -40, -123, 40, -86, 64]

  const NOISE_08B: HalfRow := [
    -38, 85, -54, -100, 7, -69, -45, -119, 97, -18, -101, 17, 87, -58, 77, 123,
    -106, 66, 27, 115, 5, -82, -120, -13, -55, 121, -114, 105, -51, -81, -105, 26]

  const NOISE_09A: HalfRow := [
    -22, 37, 77, -126, 24, -79, -104, 78, 104, 22, 55, 123, -62, -94, 75, 57,
    -108, -42, -71, -118, 22, -32, 58, -125, 9, 106, -26, -65, 126, 93, -9, 104]

  const NOISE_09B: HalfRow := [
    46, -75, 20, 74, 34, -13, 67, 45, 26, 75, 107, -49, 61, -14, -122, 3,
    -23, -85, -37, -10, -69, 98, 34, -33, 85, 8, -73, 66, 35, -34, 84, -118]

  const NOISE_10A: HalfRow := [
    112, -100, -64, 104, -24, -44, 50, 9, -54, -111, 70, -39, 3, 43, -51, -15,
    32, 108, 71, 97, 0, -63, 81, -20, -53, -94, 27, 68, 4, -99, 29, -61]

  const NOISE_10B: HalfRow := [
    -16, -92, 112, -23, -109, -82, 92, 32, -35, -75, -118, 50, -70, -95, 98, 41,
    -65, 54, 107, 78, -110, -21, 70, 108, -89, 29, 77, -127, -1, 124, 49, -56]

  const NOISE_11A: HalfRow := [
    63, -6, -86, 15, 71, -116, 90, -9, -93, -20, -74, 31, -105, 112, 91, -128,
    15, -28, 49, -92, 38, 115, -113, 45, 96, -5, -109, 55, -79, -46, -113, 116]

  const NOISE_11B: HalfRow := [
    13, -125, 89, -47, 57, 122, 14, -55, -22, 118, -4, 9, -29, 28, 112, -42,
    74, -118, 7, -93, 42, 15, -59, 54, -101, -41, -19, -62, 19, -98, -13, -75]

  const NOISE_12A: HalfRow := [
    22, 46, 93, -52, 36, 113, -71, 28, 120, 45, 98, 86, -29, -8, -68, -85,
    119, -61, -112, -18, -77, 16, -39, 72, -72, 118, -34, 80, 18, -23, 51, 77]

  const NOISE_12B: HalfRow := [
    -34, 62, 0, -63, 42, -121, -6, 101, -106, 65, 34, 90, -113, 68, -82, -5,
    -99, 31, -55, 89, -44, 127, -115, -75, 2, 116, 46, 102, -85, 92, 74, -42]

  const NOISE_13A: HalfRow := [
    117, -106, -35, 3, -95, -14, -33, 62, -126, -44, 12, -88, -119, 18, 51, 66,
    2, 82, -48, 63, 91, -103, -9, -87, 11, 35, -117, -58, 111, 91, -4, -71]

  const NOISE_13B: HalfRow := [
    34, -84, 100, 24, -31, -72, 81, 28, 52, -62, -86, -43, 125, -57, 15, -25,
    96, 120, -15, 50, -84, -4, 96, -24, 22, 88, -105, -47, 57, -27, 9, -122]

  const NOISE_14A: HalfRow := [
    -17, 82, -76, 101, 52, -111, 85, -83, 3, 108, -65, 60, 78, -47, 104, -35,
    -100, 35, -7, 125, 24, -58, 109, 59, -48, 87, -12, -85, 41, -122, -94, -51]

  const NOISE_14B: HalfRow := [
    125, -116, -15, -99, 111, 71, -90, -45, 3, -125, 104, -16, -101, 39, 86, -127,
    60, -75, -32, 20, -124, 68, 33, -53, 61, -121, -9, -70, 31, -111, 106, -61]

  const NOISE_15A: HalfRow := [
    57, 30, -117, 65, -63, 119, 16, -56, 76, -102, -6, -23, 127, 30, -76, -116,
    95, 13, -88, -122, -36, 79, 44, -127, -97, -26, 124, 14, 63, -37, 106, 69]

  const NOISE_15B: HalfRow := [
    7, 54, -41, 83, 10, -112, -12, 120, -30, 84, 18, 73, 54, -69, 3, -46,
    25, -111, 79, 113, -65, -37, 110, 32, 77, -32, 16, 122, 70, -2, 41, -89]

  const NOISE_16A: HalfRow := [
    126, -30, 11, -7, -42, 42, -21, 32, -36, 55, 40, -113, -58, -95, -11, 46,
    -22, -66, 105, 55, -73, 4, -21, 30, 102, 70, -69, -105, 0, -64, -17, 23]

  const NOISE_16B: HalfRow := [
    -107, 94, -75, 38, -54, 49, 63, -66, -98, 44, -76, -7, -36, 110, -90, 118,
    43, -59, -94, 0, 56, -105, -11, -79, 40, -61, 94, -94, -40, -77, 86, -50]

  const NOISE_17A: HalfRow := [
    -99, -71, 78, 105, -88, -107, 93, -121, 122, -74, 100, 24, 70, 5, 87, 117,
    -53, 76, 41, -27, -106, 116, -84, -62, -4, -40, 52, 98, 29, 84, 47, -81]

  const NOISE_17B: HalfRow := [
    -26, -60, -1, 118, -22, -82, 98, 30, 8, 114, -51, -119, 27, -109, -23, 70,
    -10, 97, 14, -23, 101, 25, 87, 10, 118, -111, 2, 48, 101, -125, -12, 20]

  const NOISE_18A: HalfRow := [
    1, 45, -122, -53, 25, 71, -69, -11, -94, 10, -48, -85, 114, -41, -108, 58,
    21, -119, 0, -47, 92, 66, 12, 85, -112, 20, -79, -120, -47, 32, 121, -128]

  const NOISE_18B: HalfRow := [
    103, 77, 27, -101, -124, 19, -40, -116, -19, 91, -87, 58, 100, 80, 10, -79,
    -107, 62, -43, 39, -114, -72, -48, -27, 59, -86, -17, -54, 28, -25, 112, 67]

  const NOISE_19A: HalfRow := [
    -38, 97, -17, 116, 50, -1, 110, 62, 82, -28, 90, -126, -16, 37, -72, -30,
    -93, -80, 121, 28, -14, -94, 49, -50, 122, 38, -18, 113, -29, 71, -5, 15]

  const NOISE_19B: HalfRow := [
    -40, 44, -89, 66, 89, -3, 127, 76, -104, 66, -32, 0, -67, 36, -51, 106,
    -31, -69, 84, -86, 115, 73, 47, -128, 102, 22, 82, 64, -103, -67, 52, -112]

  const NOISE_20A: HalfRow := [
    -59, -93, 16, -78, -29, -100, -40, -58, 23, 45, -3, -63, 53, 12, 72, 104,
    -9, 86, 63, -110, -60, 108, -121, -31, 72, -89, 91, 56, 10, -73, -56, 59]

  const NOISE_20B: HalfRow := [
    -112, -13, -49, 108, -29, -62, 53, -49, -71, 38, 20, 123, -97, -14, -121, 48,
    21, 125, -119, 5, -57, -14, -97, -2, -64, -40, -116, 119, 14, 92, -83, 80]

  const NOISE_21A: HalfRow := [
    121, 30, 61, 88, -113, 9, 36, -81, -118, -106, 65, 107, -97, 94, -114, -58,
    35, 14, -68, -37, 40, 18, -7, -71, 5, -109, -63, -9, -115, 102, 33, 85]

  const NOISE_21B: HalfRow := [
    113, -70, 9, 49, -77, 32, -95, 6, 112, -10, -127, -57, 88, -38, 61, 93,
    32, -7, 34, 56, -34, 98, 29, 124, 76, 38, -75, -30, -6, -46, 36, 6]

  const NOISE_22A: HalfRow := [
    -10, -128, -46, -65, 74, 125, 57, 100, -19, 118, -37, 18, -80, -25, 0, -44,
    114, -127, -20, 99, 73, -83, 88, 59, 110, 26, -38, 79, 46, -84, -103, -33]

  const NOISE_22B: HalfRow := [
    -92, 25, 95, -122, -9, 82, -112, 94, -36, 47, -78, 69, 11, 115, -83, 3,
    -58, -22, 76, -106, 16, 67, -81, -22, -106, 9, 89, -93, 45, 103, -100, -33]

  const NOISE_23A: HalfRow := [
    108, 47, 96, -3, -25, -89, -52, 87, 4, -71, 73, -51, 31, 125, 81, -100,
    47, 60, -91, 4, 126, -102, -43, -21, 36, -98, 119, -52, 19, -21, 124, 4]

  const NOISE_23B: HalfRow := [
    74, -19, -106, 121, -40, 65, 21, -21, -88, 103, 83, -105, -23, 26, -110, 38,
    109, -77, -46, 118, -67, -122, -42, 51, -51, 112, -16, 57, -60, -118, 65, -73]

  const NOISE_24A: HalfRow := [
    -20, -85, -105, 39, 20, -120, -10, 26, -101, 40, -90, -7, 50, -122, -66, 26,
    -33, 95, -74, -52, 25, 48, -124, -58, 94, -77, 0, 62, -126, 90, -47, 41]

  const NOISE_24B: HalfRow := [
    -63, 56, -53, 38, -83, 105, -57, 58, -117, 30, -52, -4, 53, -66, -44, 65,
    -126, 87, 47, -92, 91, 2, 109, 21, -88, 64, -125, 3, 121, 25, 77, 15]

  const NOISE_25A: HalfRow := [
    85, -55, 70, 115, -43, 102, 51, -63, -32, 81, 112, -109, 91, -17, 67, -85,
    7, -11, 80, -116, -27, -4, 105, 13, 73, -113, -27, 103, -68, -11, 67, -80]

  const NOISE_25B: HalfRow := [
    -116, -3, 78, -27, 11, -103, -1, 117, -74, 13, -30, 119, -93, 99, 80, -32,
    -10, 9, 25, -28, -14, 37, 79, -113, 95, -68, 33, -38, -81, -24, -49, -110]

  const NOISE_26A: HalfRow := [
    127, 28, 7, -71, -97, 76, -80, 120, -127, 59, 8, -59, -38, 15, 105, -49,
    120, -107, 36, 115, 56, -69, 66, -94, -14, 44, 23, -88, 52, -105, 28, 107]

  const NOISE_26B: HalfRow := [
    96, 18, 116, -93, 92, -66, 46, -42, -13, 78, 63, -123, 41, -76, 14, 123,
    -99, -64, 105, -119, 62, -79, -59, -6, -26, 14, 72, 107, -99, 97, -2, 52]

  const NOISE_27A: HalfRow := [
    -35, -124, -8, -31, 59, -17, 9, 34, -50, -24, 98, -82, 37, -98, 55, -118,
    75, -62, 17, -45, 89, -84, 31, -35, 124, -63, 80, -43, 115, 12, -29, -98]

  const NOISE_27B: HalfRow := [
    -39, -71, -127, 32, -15, 71, -121, 86, 35, -108, -62, 93, 1, -16, -117, 32,
    52, -84, 70, -52, 127, -36, -101, 47, 117, -45, -109, -12, 40, 60, -67, -92]

  const NOISE_28A: HalfRow := [
    37, -78, 95, 45, -116, 90, -107, 105, -3, 23, -114, 71, 123, -71, -26, -3,
    43, -80, -18, -97, 6, -112, 110, -50, -120, 4, 98, -109, -4, -56, 77, 43]

  const NOISE_28B: HalfRow := [
    -13, 63, -48, 52, -35, 123, 23, -91, 108, -82, -34, 20, -49, 109, 73, -57,
    -38, 93, -2, -110, 29, 8, 103, 59, -91, 82, -74, -57, 88, -119, 19, 103]

  const NOISE_29A: HalfRow := [
    -59, 65, 112, -52, 19, -68, -38, 65, -91, -73, 49, -14, 3, 86, 29, 96,
    -36, 111, 68, 101, -30, 78, -9, 49, 87, -79, -32, 38, 69, -123, 127, -84]

  const NOISE_29B: HalfRow := [
    7, 111, 88, -105, 3, -78, -25, -51, -5, 50, 126, -102, 59, -89, -25, -108,
    114, 19, -23, 43, 81, -70, -17, -117, 34, -4, 22, 124, 6, -29, 78, -16]

  const NOISE_30A: HalfRow := [
    13, -111, -95, 79, -1, 124, 41, -56, 84, 117, -36, -102, -46, -125, -57, -89,
    -110, 22, 53, -127, 39, -59, 15, -104, 27, 60, -93, 18, -73, -19, 92, -63]

  const NOISE_30B: HalfRow := [
    -109, 24, -89, -58, 105, 61, -113, 99, 8, 68, -19, 33, 87, -69, 42, 4,
    61, -74, -95, -46, 99, -88, 17, -54, 67, -35, -128, 50, -86, -45, -103, 118]

  const NOISE_31A: HalfRow := [
    -3, -39, -21, 29, -83, -28, -99, -7, -123, 30, 75, 107, 17, 60, 116, 80,
    -12, -50, -67, 1, -82, 121, 64, -71, -23, 118, -12, 107, 50, -46, 30, 57]

  const NOISE_31B: HalfRow := [
    -30, 74, -6, 45, 17, -67, 38, 77, -100, -73, -128, -43, -7, 12, 103, 82,
    -125, -10, 121, 72, -120, -30, 118, 87, -78, 106, 92, -21, 71, 30, -72, 47]

  const NOISE_32A: HalfRow := [
    -87, 84, 107, 49, -121, 72, 99, 57, -22, 6, -63, -84, 39, -20, -74, 47,
    12, 127, -105, 92, -38, -15, -92, 103, -45, -126, -58, 72, -113, -97, -2, 102]

  const NOISE_32B: HalfRow := [
    -119, -44, 122, -21, -118, 85, -13, -38, 28, -56, 95, 114, -114, 32, -53, -83,
    -41, 30, 48, -60, 5, 62, 40, -12, -108, 4, -95, -64, 113, -115, 98, 60]

  const NOISE_33A: HalfRow := [
    -126, 20, -67, -46, 8, 111, -75, 21, -46, 92, -111, -29, 98, -97, -2, -120,
    65, -28, 32, 76, 57, -112, 20, 81, -1, 44, 91, 8, -35, 114, 15, -76]

  const NOISE_33B: HalfRow := [
    86, 36, -81, 69, 32, -50, 119, -87, 107, 16, -26, 45, 77, 55, 24, -29,
    110, 88, -111, -20, 23, -100, -42, -67, 53, 26, -50, 43, 15, -12, -33, -53]

  const NOISE_34A: HalfRow := [
    39, 93, 64, -108, -13, -60, 37, -115, -88, 125, 48, 68, -52, 26, 109, -41,
    -84, 102, -98, 8, -52, 111, 36, -33, -81, -106, 29, -67, -85, 78, 53, -57]

  const NOISE_34B: HalfRow := [
    -10, -103, 12, -34, 96, 51, 4, -121, 56, 72, -2, -80, -64, 121, -16, 67,
    -102, -1, -72, 106, -86, 91, 111, -123, 79, 122, -37, 61, -101, 83, 6, 125]

  const NOISE_35A: HalfRow := [
    -25, -7, -80, 120, 54, -33, 89, 1, 64, -70, -11, 10, -106, 74, -68, 41,
    88, -60, -19, -76, -6, -123, -64, 67, 99, 55, -26, 122, -15, 39, -122, -25]

  const NOISE_35B: HalfRow := [
    116, 64, -64, 109, 22, -74, 34, -31, -61, -108, -94, 35, -38, 6, -122, 40,
    -59, 14, 54, 73, -50, -4, 34, 14, -24, -89, -5, -116, 105, -79, -62, 32]

  const NOISE_36A: HalfRow := [
    16, -114, -38, 32, -92, 77, -104, -19, 104, -36, 31, -128, 117, -17, -34, 2,
    -112, 55, 25, 119, 48, 94, 13, -97, -54, 5, -118, 84, -100, 19, -47, 94]

  const NOISE_36B: HalfRow := [
    -90, 46, -4, -126, -17, -107, 81, -7, 93, 125, -18, 86, -111, 101, -75, 92,
    -91, 126, -35, -127, 43, -28, -78, -57, 64, 95, -72, 74, -19, 34, 54, 70]

  const NOISE_37A: HalfRow := [
    110, 81, 99, -64, 12, 115, 25, -54, 44, -95, 84, -79, 51, 91, -90, 122,
    16, 77, -119, -44, 83, -84, -22, 126, -10, 105, -42, 63, -61, 108, 69, 5]

  const NOISE_37B: HalfRow := [
    -113, 28, -42, 89, -54, 117, 66, -84, -44, 43, 15, 60, -51, 22, -11, 75,
    -47, 31, -8, -98, 84, 119, -114, 104, -102, 6, 40, 20, -54, 117, -120, -45]

  const NOISE_38A: HalfRow := [
    -75, -102, 42, -2, -125, -44, -78, 73, -119, 113, 4, -43, -59, 21, -103, 63,
    -51, -11, -93, 35, -32, -108, 22, 53, -72, 39, -88, 27, -6, -80, -33, -70]

  const NOISE_38B: HalfRow := [
    126, 75, -82, 57, 39, -93, 9, 26, -118, -72, 107, -29, -88, 118, 50, -26,
    -115, 61, 100, -68, 7, 58, 26, -15, 49, -45, -122, 100, -87, -35, 26, 2]

  const NOISE_39A: HalfRow := [
    52, -55, -30, 68, -17, 102, 56, -5, -66, 18, -22, 60, 103, -5, 37, -74,
    -25, 95, -65, 114, 1, 70, -49, -120, 75, -103, 10, 93, -128, 53, 36, -104]

  const NOISE_39B: HalfRow := [
    -14, -28, 16, 106, -67, -22, -37, 98, 53, -56, 3, -127, 82, -68, -106, 10,
    112, -81, -21, 20, -53, -90, -39, 81, -66, 127, -29, -8, 86, -108, 78, -14]

  const NOISE_40A: HalfRow := [
    -91, 95, 19, 126, -85, -109, 38, -31, 94, -108, 79, -87, -118, -31, 83, -114,
    108, 44, 12, 61, -76, 102, 32, 89, -36, -18, 111, -55, -25, 119, 86, 13]

  const NOISE_40B: HalfRow := [
    101, -56, -120, -100, 2, 79, -115, 122, -16, 70, -98, 34, -7, 66, -37, 28,
    -60, 87, -119, 72, 109, -109, 97, -1, -82, 70, 32, 58, 8, 45, -65, 120]

  const NOISE_41A: HalfRow := [
    32, 62, -117, -70, 7, 89, 23, -95, 120, -49, 46, 29, 126, -63, 68, 2,
    -86, -41, -102, -127, -19, -59, -98, -5, 118, -68, 44, 69, 3, -108, -64, -93]

  const NOISE_41B: HalfRow := [
    60, 42, 88, 27, 113, -49, 44, -102, -78, 22, 94, 114, -48, 43, 98, -94,
    1, 36, -40, 47, -5, -27, 40, -126, 14, 33, 111, -58, -78, 106, -24, -128]

  const NOISE_42A: HalfRow := [
    -36, -8, -49, 46, 71, -39, -58, -10, 63, 8, -73, -13, -98, 13, -47, 117,
    27, 56, -8, 82, 124, 49, 15, -82, 57, 21, -112, -90, -39, 31, 77, -46]

  const NOISE_42B: HalfRow := [
    -3, -84, -39, -11, -74, 65, 18, -4, 84, -41, -25, -84, 13, -111, -77, 124,
    -16, 59, -101, 120, -86, -61, 67, 115, -48, -20, -114, 23, -41, -99, 68, 12]

  const NOISE_43A: HalfRow := [
    -82, 83, 104, -103, -22, 117, -115, -79, 104, -123, -34, 73, 94, 53, -124, -21,
    89, -56, 105, 21, -89, -43, -27, 99, -124, -47, 83, 101, -75, 51, -16, 109]

  const NOISE_43B: HalfRow := [
    -110, 69, 122, 51, -125, -30, -89, 109, -65, 40, -122, 57, -60, 81, -28, 72,
    -126, -50, 94, -73, 11, 27, 89, -97, -70, 48, 77, 90, -2, 37, 97, -60]

  const NOISE_44A: HalfRow := [
    -110, 115, 27, 0, -91, 81, 55, 26, 84, 41, -55, 110, -83, -6, 35, -73,
    -94, -111, -31, -69, 37, 64, -106, 76, 6, 36, -22, -7, 15, 116, -124, 25]

  const NOISE_44B: HalfRow := [
    -30, 11, -62, 32, 96, 76, -55, 59, 10, -105, 121, -18, 100, 2, 24, 46,
    -65, 16, -9, 76, -120, -17, 55, -36, -7, 102, -105, -30, -122, 124, -17, 54]

  const NOISE_45A: HalfRow := [
    17, -29, -76, -56, 40, 11, -68, -27, 0, -100, -18, 21, -108, -39, 102, 65,
    17, 47, 75, 1, -117, 90, -12, 109, -74, -60, 127, -100, 62, -54, -88, 89]

  const NOISE_45B: HalfRow := [
    -72, 100, 35, -15, 5, 31, -21, -117, 91, -8, 73, 28, -92, -116, -41, 103,
    -85, 115, 32, -39, 106, -54, -104, 123, 21, -87, 8, 64, -50, -72, -90, 76]

  const NOISE_46A: HalfRow := [
    43, -122, 66, 95, -15, -126, 99, -48, -87, 123, 58, -69, 44, 82, -60, 4,
    119, -48, -18, 111, -81, -53, 29, -37, -92, 71, 48, -117, 94, -34, 41, 1]

  const NOISE_46B: HalfRow := [
    56, -117, -50, 112, -109, -73, 126, 46, -37, -78, -52, 50, -70, 116, -6, -104,
    64, -26, -93, -110, 61, 43, 4, -77, 73, 39, -64, 115, 52, 29, 2, -46]

  const NOISE_47A: HalfRow := [
    -100, -11, 124, -40, 50, -105, 114, 33, 72, -117, 92, 7, 114, -121, -25, -86,
    -102, 92, -125, 55, 10, 121, 46, -114, -1, 21, -28, -81, 9, -66, 80, -104]

  const NOISE_47B: HalfRow := [
    -23, 73, -83, 48, 84, -43, -92, 20, 102, -102, 4, -32, 89, 59, -57, 83,
    7, 40, 90, -3, -64, 82, -30, -114, 97, -44, -23, -95, -9, -117, 111, 88]

  const NOISE_48A: HalfRow := [
    104, 6, -69, -94, 16, 78, -33, -8, -61, 17, -45, -29, -94, 28, 74, -11,
    39, -66, 27, -35, -98, -64, -21, 85, 58, 113, -47, 103, 32, -9, 123, -43]

  const NOISE_48B: HalfRow := [
    105, 17, -4, -32, 24, 67, -12, -62, 79, 33, 110, -126, 14, 36, -82, -18,
    -120, -50, -76, 122, 18, -89, 112, 32, -12, -124, 82, 101, 12, 68, -34, -62]

  const NOISE_49A: HalfRow := [
    -85, 56, 34, 87, -51, -78, 62, 32, 106, 52, -80, -3, 61, -51, 127, 13,
    -40, 108, 82, -6, 71, 22, 97, -104, -72, -127, 78, -17, -102, 68, -123, 24]

  const NOISE_49B: HalfRow := [
    -91, -60, 92, -128, -99, 115, 10, -120, 58, -87, -21, 69, -98, -40, 127, 23,
    52, 102, -34, 69, -123, -20, -52, 57, -70, 17, 44, -56, -106, -77, 37, -21]

  const NOISE_50A: HalfRow := [
    19, 72, -120, -28, 117, -1, 26, -119, -19, 38, -106, 89, 104, -114, -73, 53,
    -109, 62, -77, -115, 103, -86, -45, -8, 14, -58, 41, -90, 54, -51, -74, 49]

  const NOISE_50B: HalfRow := [
    -14, 64, 121, -69, 55, -53, 97, -28, -2, -45, 120, -73, -10, 97, -110, -66,
    74, -97, -10, 29, 48, 93, 11, -99, 67, 125, -85, -37, 56, 119, 79, -114]

  const NOISE_51A: HalfRow := [
    -3, -57, 109, -13, -107, 46, -68, 93, 125, -40, 71, -62, -16, 45, 0, 96,
    -92, -18, -50, 6, 48, -26, 62, 35, 124, -33, 91, -1, 117, 11, 87, 109]

  const NOISE_51B: HalfRow := [
    -37, -112, 38, 4, -20, 29, -78, -112, 88, 41, 23, -55, 48, 79, 1, -27,
    112, 9, -60, -107, -44, -80, 108, -34, -5, -111, 88, 4, 25, -14, -47, 96]

  const NOISE_52A: HalfRow := [
    -101, -36, 23, -83, 97, 66, 10, -53, -89, 1, 29, -124, 16, -85, -33, -56,
    111, 18, 37, 123, -66, -123, 109, 32, 74, -80, 25, -119, -66, -29, -115, 33]

  const NOISE_52B: HalfRow := [
    0, -80, -48, 85, -92, 104, 48, 72, -65, -103, 100, -121, 9, -92, -47, 41,
    -128, -83, 57, 119, 83, 1, -118, 75, -60, 38, -24, 103, -127, -66, -91, 51]

  const NOISE_53A: HalfRow := [
    127, -72, 81, 40, -42, -125, -27, 83, 54, -74, 107, -26, 117, 86, 67, 30,
    -128, 74, -32, -101, 85, 26, -54, 5, -112, -20, 60, -41, 99, 70, -18, 32]

  const NOISE_53B: HalfRow := [
    75, 100, 20, 62, -121, -36, -13, 125, 17, -31, 65, -19, 56, 118, -77, 90,
    64, 20, 100, -24, 36, -67, 23, 47, 117, -78, -49, -97, 61, 111, 11, 33]

  const NOISE_54A: HalfRow := [
    -121, 64, 2, -95, -61, 121, -6, -113, 20, -103, 78, -49, 32, 41, -108, -8,
    -65, 91, -83, -2, 66, -15, -38, 94, 50, -61, 106, -101, 45, 21, -77, 126]

  const NOISE_54B: HalfRow := [
    -57, -108, -26, 116, -63, 11, -102, -48, -91, 3, -81, 110, -114, -35, 31, -16,
    -54, -5, -39, -95, -113, -13, 99, -91, -18, 15, 80, 30, -7, -41, 86, -24]

  const NOISE_55A: HalfRow := [
    100, -16, 48, 106, 14, 34, 70, 102, -37, 44, -11, 60, 5, -78, -41, 121,
    11, 46, -44, 113, -117, -76, 42, -90, 118, 15, -11, 78, -87, -5, -44, 39]

  const NOISE_55B: HalfRow := [
    10, 54, -8, -86, 42, 69, 28, 108, 81, 35, -58, 85, 18, -68, 102, -103,
    -117, 82, -72, 51, 78, -53, 63, -40, -123, 54, 96, -71, -117, 71, -83, -55]

  const NOISE_56A: HalfRow := [
    21, -46, -110, -31, -79, -101, -17, -70, -87, 119, -59, -118, 92, 23, -21, 72,
    -116, -93, -22, 53, 98, 19, 79, -4, -126, -74, 33, -52, -115, 109, 61, 94]

  const NOISE_56B: HalfRow := [
    -126, -70, 80, -42, 96, -2, -76, -127, 53, -11, -107, -43, 44, -4, 73, 8,
    125, 39, 106, 3, 19, 122, -81, 8, 108, -108, 0, -34, 123, 43, 5, -103]

  const NOISE_57A: HalfRow := [
    75, -73, 90, 60, 113, -53, 52, 93, 30, 12, -31, 111, -67, 52, 100, -53,
    106, 27, -69, 6, -56, -109, -27, 58, -43, 85, -31, 122, 8, -66, -103, -32]

  const NOISE_57B: HalfRow := [
    -15, 113, 24, -98, -114, 121, -34, -61, -24, 98, 67, 122, 32, -25, -85, 59,
    -63, -28, -86, -125, -43, -105, 32, -28, 69, -55, 40, -89, -15, -62, 56, 107]

  const NOISE_58A: HalfRow := [
    36, -12, -128, -2, 23, 81, -110, -44, -5, -125, 66, 35, -110, -3, -87, -104,
    58, -10, 80, 125, -97, 35, 110, -63, 102, -106, 66, 51, -20, 87, 31, 74]

  const NOISE_58B: HalfRow := [
    -91, 47, 5, -55, 57, -17, 89, 39, -110, 10, -72, 25, -124, 95, -50, 33,
    -99, 22, 71, -9, 56, 94, -66, 84, -9, -99, 116, 17, 90, -111, -28, -93]

  const NOISE_59A: HalfRow := [
    10, 124, -59, 43, -88, -25, 7, 124, -95, 86, -80, -16, 76, -35, 17, 39,
    -31, -80, -123, 65, -36, -12, -82, 12, 27, -91, 1, -79, -123, 18, -54, -1]

  const NOISE_59B: HalfRow := [
    -76, -38, 103, 83, 33, -84, 19, 73, 104, -87, -37, 1, 51, 77, 116, -12,
    -39, 91, 114, -57, -23, 110, -92, 48, 25, -75, 76, -51, 63, 29, 114, -42]

  const NOISE_60A: HalfRow := [
    87, -105, 64, -38, 100, -116, 74, 42, -58, 54, 107, -48, -98, 126, 85, -63,
    115, 93, 13, -51, 43, 90, 69, -121, -23, 43, 98, -39, 113, -95, 101, 52]

  const NOISE_60B: HalfRow := [
    120, -107, -23, -124, -68, -44, 2, 32, -52, 58, 110, -18, -60, -78, 11, -104,
    46, -120, 7, -75, 41, -115, 6, -40, -127, 101, -23, 3, -120, -77, -4, -67]

  const NOISE_61A: HalfRow := [
    51, -20, -80, 16, 116, -64, -13, -77, 17, -27, 1, 26, -71, 47, -126, -44,
    0, 31, -19, -112, -71, 116, -1, -48, 123, 75, -58, -10, 37, 63, -26, -113]

  const NOISE_61B: HalfRow := [
    -61, 38, 68, 14, 114, 62, -118, 123, -8, 30, -119, 88, 38, -114, -30, 106,
    -67, 60, -90, 81, 23, 68, -15, 127, -61, 58, -104, -37, 45, 99, 72, -116]

  const NOISE_62A: HalfRow := [
    106, 31, 83, -6, -98, 35, -42, 68, 91, -106, -119, 97, 60, 8, -13, 68,
    -109, -92, 109, 56, 24, -88, -101, 53, -69, -113, 22, -103, -73, -48, 9, 81]

  const NOISE_62B: HalfRow := [
    25, 93, -4, -90, -15, 97, -28, 47, -65, 80, -45, -99, 127, 66, 24, 76,
    -5, -47, 123, -33, -107, -52, -81, 90, 16, 35, 112, 83, -87, -18, 23, -49]

  const NOISE_63A: HalfRow := [
    -89, -30, -120, -53, 95, 59, -123, 111, -86, 33, 119, -54, -33, -87, 105, -76,
    42, 76, -65, -32, 85, 7, -16, 80, -32, 10, 95, 50, 88, 123, -121, -12]

  const NOISE_63B: HalfRow := [
    -79, -42, -102, -53, 42, -75, 85, -107, 21, -82, -25, 14, -9, -91, -55, 99,
    -111, -20, 31, 88, -3, 105, 53, -29, -90, -10, -70, 9, -57, 123, -99, 5]

  /** `(x & 63) | (y & 63) << 6` on 32-bit unsigned coordinates: the offset of
      (x mod 64, y mod 64) in the 64 x 64 tile. */
  function NoiseIndexBits(x: bv32, y: bv32): (r: bv32)
    ensures r < 4096
    ensures r == x % 64 + 64 * (y % 64)
  {
    (x & 63) | ((y & 63) << 6)
  }

  /** `(x * 19 & 63) | (y * 23 & 63) << 6`: the same tile read at the
      scrambled coordinates (19 x, 23 y), the products wrapping at 32 bits. */
  function ScrambledIndexBits(x: bv32, y: bv32): (r: bv32)
    ensures r < 4096
    ensures r == (x * 19) % 64 + 64 * ((y * 23) % 64)
  {
    NoiseIndexBits(x * 19, y * 23)
  }

  /** The unsigned 32-bit product of `UINT` values. */
  function UIntMul(a: nat, b: nat): (r: nat)
    ensures r < 0x1_0000_0000
    ensures a * b < 0x1_0000_0000 ==> r == a * b
  {
    (a * b) % 0x1_0000_0000
  }

  /** NoiseIndexBits on integer coordinates, as its contract states it. */
  function NoiseIndex(x: nat, y: nat): (r: nat)
    ensures r < 4096
  {
    x % 64 + 64 * (y % 64)
  }

  /** ScrambledIndexBits on integer coordinates. */
  function ScrambledIndex(x: nat, y: nat): (r: nat)
    ensures r < 4096
  {
    NoiseIndex(UIntMul(x, 19), UIntMul(y, 23))
  }

  /** The noise pattern tiles the image: moving 64 pixels along either axis
      reads the same table entries. */
  lemma {:induction false} NoiseTiles(x: nat, y: nat)
    ensures NoiseIndex(x + 64, y) == NoiseIndex(x, y)
    ensures NoiseIndex(x, y + 64) == NoiseIndex(x, y)
    ensures ScrambledIndex(x + 64, y) == ScrambledIndex(x, y)
    ensures ScrambledIndex(x, y + 64) == ScrambledIndex(x, y)
  {
    ModShift(x, 1);
    ModShift(y, 1);
    ScaledShift(x, 19);
    ScaledShift(y, 23);
  }

  /** Adding 64 to a coordinate leaves its wrapped product's low six bits. */
  lemma {:induction false} ScaledShift(a: nat, b: nat)
    ensures UIntMul(a + 64, b) % 64 == UIntMul(a, b) % 64
  {
    MulWrapMod(a, b);
    MulWrapMod(a + 64, b);
    assert (a + 64) * b == a * b + 64 * b;
    ModShift(a * b, b);
  }

  /** A 32-bit wrap keeps the low six bits of a product. */
  lemma {:induction false} MulWrapMod(a: nat, b: nat)
    ensures UIntMul(a, b) % 64 == (a * b) % 64
  {
    var m := a * b;
    var q, r := m / 0x1_0000_0000, m % 0x1_0000_0000;
    assert m == 64 * (q * 0x400_0000) + r;
    ModShift(r, q * 0x400_0000);
  }

  lemma {:induction false} ModShift(r: int, k: int)
    ensures (r + 64 * k) % 64 == r % 64
  {
  }

  /** The perturbation `adj` of pixel (x, y). Its float formula is a
      parameter; it is given the two table entries and the parity `x + y & 1`
      it is computed from. */
  type Adjust = (int, int, int) -> real

  function AdjAt(noise: NoiseTable, adj: Adjust, x: nat, y: nat): real
  {
    adj(noise[NoiseIndex(x, y)], noise[ScrambledIndex(x, y)], (x + y) % 2)
  }

  /** One channel pushed away from the palette channel c by the factor adj,
      clamped to 0..255 and truncated to a byte. */
  function PerturbChannel(p: Byte, c: Byte, adj: real): (r: Byte)
    ensures p == c || adj == 0.0 ==> r == p
    ensures adj >= 0.0 && p >= c ==> r >= p
    ensures adj >= 0.0 && p <= c ==> r <= p
  {
    ScaleSign(adj, (p - c) as real);
    ClampByte(p as real + adj * (p - c) as real)
  }

  lemma {:induction false} ScaleSign(f: real, d: real)
    ensures d == 0.0 || f == 0.0 ==> f * d == 0.0
    ensures f >= 0.0 && d >= 0.0 ==> f * d >= 0.0
    ensures f >= 0.0 && d <= 0.0 ==> f * d <= 0.0
  {
  }

  /** The colour `MakeARGB(a_pix, r_pix, g_pix, b_pix)` that is resolved again. */
  function Perturb(pixel: Color, c1: Color, adj: real): (r: Color)
    ensures pixel == c1 ==> r == pixel
  {
    Color(PerturbChannel(pixel.a, c1.a, adj), PerturbChannel(pixel.r, c1.r, adj),
          PerturbChannel(pixel.g, c1.g, adj), PerturbChannel(pixel.b, c1.b, adj))
  }

  /** The colour pixel i is resolved to, in a raster of the given width: the
      pixel perturbed away from the palette entry its incoming index names. */
  function PerturbedAt(noise: NoiseTable, adj: Adjust, width: nat, pixels: seq<Color>, palette: seq<Color>,
                       q0: seq<int>, i: nat): Color
    requires width >= 1 && i < |pixels| && i < |q0|
    requires 0 <= q0[i] < |palette|
  {
    var x, y := i % width, i / width;
    Perturb(pixels[i], palette[q0[i]], AdjAt(noise, adj, x, y))
  }

  /** The colours of the whole pass, in raster order. */
  function Perturbed(noise: NoiseTable, adj: Adjust, width: nat, pixels: seq<Color>, palette: seq<Color>,
                     q0: seq<int>): (cs: seq<Color>)
    requires width >= 1 && |pixels| == |q0|
    requires forall i :: 0 <= i < |q0| ==> 0 <= q0[i] < |palette|
    ensures |cs| == |pixels|
    ensures forall i :: 0 <= i < |cs| && pixels[i] == palette[q0[i]] ==> cs[i] == pixels[i]
  {
    seq(|pixels|, i requires 0 <= i < |pixels| => PerturbedAt(noise, adj, width, pixels, palette, q0, i))
  }

  /** The first of cs[..k] whose lookup slot is s, or -1 when there is none. */
  function FirstWithSlot(cs: seq<Color>, slot: Color -> Slot, s: Slot, k: nat): (j: int)
    requires k <= |cs|
    ensures -1 <= j < k
    ensures j == -1 <==> forall i :: 0 <= i < k ==> slot(cs[i]) != s
    ensures j >= 0 ==> slot(cs[j]) == s && forall i :: 0 <= i < j ==> slot(cs[i]) != s
    decreases k
  {
    if k == 0 then -1
    else
      var j := FirstWithSlot(cs, slot, s, k - 1);
      if j >= 0 then j else if slot(cs[k - 1]) == s then k - 1 else -1
  }

  /** The index the pass leaves for colour i of cs. With fewer than 64
      palette entries it is the one `ditherFn` gave the first colour of the
      same lookup slot, otherwise `ditherFn` of the colour itself. */
  function Resolved(cs: seq<Color>, count: nat, ditherFn: Color -> int, slot: Color -> Slot, i: nat): int
    requires i < |cs|
  {
    if count < 64 then
      var j := FirstWithSlot(cs, slot, slot(cs[i]), i + 1);
      if j >= 0 then ditherFn(cs[j]) else assert false; 0
    else ditherFn(cs[i])
  }

  function Output(cs: seq<Color>, count: nat, ditherFn: Color -> int, slot: Color -> Slot): (out: seq<int>)
    ensures |out| == |cs|
    ensures (forall c :: 0 <= ditherFn(c) < count) ==> forall i :: 0 <= i < |out| ==> 0 <= out[i] < count
  {
    seq(|cs|, i requires 0 <= i < |cs| => Resolved(cs, count, ditherFn, slot, i))
  }

  /** The first colour of a slot stays the first as more colours follow. */
  lemma {:induction false} FirstWithSlotStable(cs: seq<Color>, slot: Color -> Slot, s: Slot, k: nat, k': nat)
    requires k <= k' <= |cs| && FirstWithSlot(cs, slot, s, k) >= 0
    ensures FirstWithSlot(cs, slot, s, k') == FirstWithSlot(cs, slot, s, k)
    decreases k' - k
  {
    if k < k' {
      FirstWithSlotStable(cs, slot, s, k, k' - 1);
    }
  }

  /** With the lookup memo, two pixels whose colours share a slot get the
      same index. */
  lemma {:induction false} SameSlotSameIndex(cs: seq<Color>, count: nat, ditherFn: Color -> int,
                                             slot: Color -> Slot, i: nat, j: nat)
    requires i <= j < |cs| && count < 64 && slot(cs[i]) == slot(cs[j])
    ensures Output(cs, count, ditherFn, slot)[i] == Output(cs, count, ditherFn, slot)[j]
  {
    FirstWithSlotStable(cs, slot, slot(cs[i]), i + 1, j + 1);
  }

  /** When `ditherFn` gives colours of one slot one index, the memo changes
      nothing: every pixel gets `ditherFn` of its own colour. */
  lemma {:induction false} MemoTransparent(cs: seq<Color>, count: nat, ditherFn: Color -> int,
                                           slot: Color -> Slot, i: nat)
    requires i < |cs|
    requires forall c, d :: slot(c) == slot(d) ==> ditherFn(c) == ditherFn(d)
    ensures Output(cs, count, ditherFn, slot)[i] == ditherFn(cs[i])
  {
  }

  /** The lookup memo after the first k colours of the pass: a slot is filled,
      with the colour's index plus 1, the first time a colour of that slot is
      resolved, and only for palettes under 64 colours. */
  function MemoTable(cs: seq<Color>, count: nat, ditherFn: Color -> int, slot: Color -> Slot, k: nat): (t: seq<int>)
    requires k <= |cs|
    ensures |t| == 65536
    decreases k
  {
    if k == 0 then seq(65536, _ => 0)
    else
      var t := MemoTable(cs, count, ditherFn, slot, k - 1);
      var s := slot(cs[k - 1]);
      if count < 64 && t[s] == 0 then t[s := ditherFn(cs[k - 1]) + 1] else t
  }

  /** A filled slot holds the index of the first colour of that slot plus 1;
      an empty slot has seen no colour yet. */
  lemma {:induction false} MemoTableFirst(cs: seq<Color>, count: nat, ditherFn: Color -> int,
                                          slot: Color -> Slot, k: nat, s: Slot)
    requires k <= |cs| && forall c :: 0 <= ditherFn(c)
    ensures var j := FirstWithSlot(cs, slot, s, k);
      MemoTable(cs, count, ditherFn, slot, k)[s] == if count >= 64 || j < 0 then 0 else ditherFn(cs[j]) + 1
    decreases k
  {
    if k > 0 {
      MemoTableFirst(cs, count, ditherFn, slot, k - 1, s);
    }
  }

  /** What the pass writes for colour k, in terms of the memo it leaves. */
  lemma {:induction false} MemoStep(cs: seq<Color>, count: nat, ditherFn: Color -> int, slot: Color -> Slot, k: nat)
    requires k < |cs| && forall c :: 0 <= ditherFn(c)
    ensures Output(cs, count, ditherFn, slot)[k]
            == if count < 64 then MemoTable(cs, count, ditherFn, slot, k + 1)[slot(cs[k])] - 1 else ditherFn(cs[k])
  {
    MemoTableFirst(cs, count, ditherFn, slot, k + 1, slot(cs[k]));
  }

  lemma {:induction false} RowAdvance(width: nat, y: nat)
    ensures (y + 1) * width == y * width + width
  {
  }

  lemma {:induction false} RowsFill(width: nat, height: nat)
    ensures height * width == width * height
  {
  }

  /** One row of the pass: the pixels of row y, left to right. */
  method Row(noise: NoiseTable, width: nat, height: nat, pixels: seq<Color>, palette: seq<Color>,
             ditherFn: Color -> int, getColorIndex: Color -> Slot, adj: Adjust, qPixels: array<int>,
             lookup: array<int>, y: nat, ghost cs: seq<Color>, ghost q0: seq<int>, ghost row: nat)
    requires qPixels != lookup && lookup.Length == 65536 && qPixels.Length == |q0|
    requires forall c :: 0 <= ditherFn(c) < |palette|
    requires Cells(noise, adj, width, height, pixels, palette, q0, cs)
    requires y < height && row == y * width && row + width <= qPixels.Length
    requires forall i :: 0 <= i < row ==> qPixels[i] == Output(cs, |palette|, ditherFn, getColorIndex)[i]
    requires forall i :: row <= i < qPixels.Length ==> qPixels[i] == q0[i]
    requires lookup[..] == MemoTable(cs, |palette|, ditherFn, getColorIndex, row)
    modifies qPixels, lookup
    ensures forall i :: 0 <= i < row + width ==> qPixels[i] == Output(cs, |palette|, ditherFn, getColorIndex)[i]
    ensures forall i :: row + width <= i < qPixels.Length ==> qPixels[i] == q0[i]
    ensures lookup[..] == MemoTable(cs, |palette|, ditherFn, getColorIndex, row + width)
  {
    ghost var out := Output(cs, |palette|, ditherFn, getColorIndex);
    ghost var k := row;
    var x := 0;
    while x < width
      invariant 0 <= x <= width && k == x + row
      invariant forall i :: 0 <= i < k ==> qPixels[i] == out[i]
      invariant forall i :: k <= i < qPixels.Length ==> qPixels[i] == q0[i]
      invariant lookup[..] == MemoTable(cs, |palette|, ditherFn, getColorIndex, k)
    {
      var i := PixelIndex(width, x, y);
      assert i == k;
      Step(noise, width, pixels, palette, ditherFn, getColorIndex, adj, qPixels, lookup, x, y, height, cs, q0, k);
      k := k + 1;
      x := x + 1;
    }
  }

  /** `BlueNoise::dither`: in raster order, each pixel is perturbed away from
      the palette colour of its current index and resolved again, through the
      lookup memo for palettes under 64 colours. Every output cell is read
      once and then written once. */
  method Dither(width: nat, height: nat, pixels: seq<Color>, palette: seq<Color>,
                ditherFn: Color -> int, getColorIndex: Color -> Slot, adj: Adjust, qPixels: array<int>)
    requires |pixels| == width * height && qPixels.Length == width * height
    requires forall c :: 0 <= ditherFn(c) < |palette|
    requires forall i :: 0 <= i < qPixels.Length ==> 0 <= qPixels[i] < |palette|
    modifies qPixels
    ensures width >= 1 ==>
      qPixels[..] == Output(Perturbed(RAW_BLUE_NOISE, adj, width, pixels, palette, old(qPixels[..])),
                            |palette|, ditherFn, getColorIndex)
    ensures forall i :: 0 <= i < qPixels.Length ==> 0 <= qPixels[i] < |palette|
  {
    DitherWith(RAW_BLUE_NOISE, width, height, pixels, palette, ditherFn, getColorIndex, adj, qPixels);
  }

  /** The pass of `BlueNoise::dither` over a given 4096-entry noise table. */
  method DitherWith(noise: NoiseTable, width: nat, height: nat, pixels: seq<Color>, palette: seq<Color>,
                    ditherFn: Color -> int, getColorIndex: Color -> Slot, adj: Adjust, qPixels: array<int>)
    requires |pixels| == width * height && qPixels.Length == width * height
    requires forall c :: 0 <= ditherFn(c) < |palette|
    requires forall i :: 0 <= i < qPixels.Length ==> 0 <= qPixels[i] < |palette|
    modifies qPixels
    ensures width >= 1 ==>
      qPixels[..] == Output(Perturbed(noise, adj, width, pixels, palette, old(qPixels[..])),
                            |palette|, ditherFn, getColorIndex)
    ensures forall i :: 0 <= i < qPixels.Length ==> 0 <= qPixels[i] < |palette|
  {
    if width == 0 {
      var lookup := new int[65536](_ => 0);
      return;
    }
    ghost var cs := Perturbed(noise, adj, width, pixels, palette, qPixels[..]);
    forall x, y | 0 <= x < width && 0 <= y < height
      ensures 0 <= PixelIndex(width, x, y) < |cs|
      ensures cs[PixelIndex(width, x, y)]
              == Perturb(pixels[PixelIndex(width, x, y)], palette[qPixels[PixelIndex(width, x, y)]], AdjAt(noise, adj, x, y))
    {
      PixelIndexInRange(width, height, x, y);
      IndexOfPixel(width, x, y);
    }
    Raster(noise, width, height, pixels, palette, ditherFn, getColorIndex, adj, qPixels, cs);
  }

  /** The two loops of `BlueNoise::dither`, given the colour cs[x + y * width]
      each pixel is resolved to. */
  method Raster(noise: NoiseTable, width: nat, height: nat, pixels: seq<Color>, palette: seq<Color>,
                ditherFn: Color -> int, getColorIndex: Color -> Slot, adj: Adjust, qPixels: array<int>,
                ghost cs: seq<Color>)
    requires width >= 1
    requires forall c :: 0 <= ditherFn(c) < |palette|
    requires Cells(noise, adj, width, height, pixels, palette, qPixels[..], cs)
    modifies qPixels
    ensures qPixels[..] == Output(cs, |palette|, ditherFn, getColorIndex)
    ensures forall i :: 0 <= i < qPixels.Length ==> 0 <= qPixels[i] < |palette|
  {
    var lookup := new int[65536](_ => 0);
    ghost var q0 := qPixels[..];
    ghost var out := Output(cs, |palette|, ditherFn, getColorIndex);
    ghost var row := 0;
    assert |out| == qPixels.Length;
    var y := 0;
    while y < height
      invariant 0 <= y <= height && row == y * width && row <= qPixels.Length
      invariant forall i :: 0 <= i < row ==> qPixels[i] == out[i]
      invariant forall i :: row <= i < qPixels.Length ==> qPixels[i] == q0[i]
      invariant lookup[..] == MemoTable(cs, |palette|, ditherFn, getColorIndex, row)
    {
      PixelIndexInRange(width, height, width - 1, y);
      Row(noise, width, height, pixels, palette, ditherFn, getColorIndex, adj, qPixels, lookup, y, cs, q0, row);
      RowAdvance(width, y);
      row := row + width;
      y := y + 1;
    }
    assert row == qPixels.Length by { RowsFill(width, height); }
    assert forall i :: 0 <= i < qPixels.Length ==> qPixels[..][i] == out[i];
  }

  /** cs holds, at each pixel's offset, that pixel perturbed towards the
      palette colour q names for it: what the pass resolves, pixel by pixel. */
  ghost predicate Cells(noise: NoiseTable, adj: Adjust, width: nat, height: nat, pixels: seq<Color>,
                        palette: seq<Color>, q: seq<int>, cs: seq<Color>)
  {
    && |pixels| == |q| == |cs| == width * height
    && (forall i :: 0 <= i < |q| ==> 0 <= q[i] < |palette|)
    && forall x, y :: 0 <= x < width && 0 <= y < height ==>
      && 0 <= PixelIndex(width, x, y) < |cs|
      && cs[PixelIndex(width, x, y)]
         == Perturb(pixels[PixelIndex(width, x, y)], palette[q[PixelIndex(width, x, y)]], AdjAt(noise, adj, x, y))
  }

  /** The body of the raster loops for pixel (x, y): resolve its perturbed
      colour, through the memo for palettes under 64 colours, and write the
      index to its output cell, and to no other. */
  method Step(noise: NoiseTable, width: nat, pixels: seq<Color>, palette: seq<Color>,
              ditherFn: Color -> int, getColorIndex: Color -> Slot, adj: Adjust,
              qPixels: array<int>, lookup: array<int>, x: nat, y: nat, ghost height: nat,
              ghost cs: seq<Color>, ghost q0: seq<int>, ghost k: nat)
    requires qPixels != lookup && lookup.Length == 65536 && k == PixelIndex(width, x, y)
    requires forall c :: 0 <= ditherFn(c) < |palette|
    requires x < width && y < height && qPixels.Length == |q0|
    requires Cells(noise, adj, width, height, pixels, palette, q0, cs)
    requires qPixels[k] == q0[k]
    requires lookup[..] == MemoTable(cs, |palette|, ditherFn, getColorIndex, k)
    modifies qPixels, lookup
    ensures lookup[..] == MemoTable(cs, |palette|, ditherFn, getColorIndex, k + 1)
    ensures qPixels[k] == Output(cs, |palette|, ditherFn, getColorIndex)[k]
    ensures forall j :: 0 <= j < qPixels.Length && j != k ==> qPixels[j] == old(qPixels[j])
  {
    var i := PixelIndex(width, x, y);
    var pixel := pixels[i];
    var c1 := palette[qPixels[i]];
    var c := Perturb(pixel, c1, AdjAt(noise, adj, x, y));
    ghost var memo := lookup[..];
    MemoStep(cs, |palette|, ditherFn, getColorIndex, k);
    if |palette| < 64 {
      var offset := getColorIndex(c);
      if lookup[offset] == 0 {
        lookup[offset] := ditherFn(c) + 1;
        assert lookup[..] == memo[offset := ditherFn(c) + 1];
      }
      qPixels[i] := lookup[offset] - 1;
    } else {
      qPixels[i] := ditherFn(c);
    }
  }
}
