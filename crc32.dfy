/** The checksum `crc32hash` computes over a key's bytes: CRC-32 with the
    polynomial of IEEE 802.3 (section 3.2.9), in its usual reflected,
    bit-at-a-time form. */
module Crc32 {

  /** One octet of a Go byte slice or string. */
  newtype byte = b: int | 0 <= b < 256

  /** The IEEE 802.3 generator polynomial, bit-reversed. */
  const Polynomial: bv32 := 0xEDB8_8320

  /** Shifts one bit out of the register, folding in the polynomial when it is set. */
  function ShiftBit(c: bv32): (r: bv32)
  {
    if c & 1 == 1 then (c >> 1) ^ Polynomial else c >> 1
  }

  /** Feeds one byte into the register. */
  function UpdateByte(c: bv32, b: byte): (r: bv32)
  {
    var x := c ^ (b as bv32);
    ShiftBit(ShiftBit(ShiftBit(ShiftBit(ShiftBit(ShiftBit(ShiftBit(ShiftBit(x))))))))
  }

  /** Feeds a run of bytes into the register, first byte first (what `hash.Write` does). */
  function Update(c: bv32, data: seq<byte>): (r: bv32)
    decreases |data|
  {
    if data == [] then c else Update(UpdateByte(c, data[0]), data[1..])
  }

  /** `crc32hash`: preset the register to all ones, feed the data, complement the result. */
  function Checksum(data: seq<byte>): (r: bv32)
  {
    Update(0xFFFF_FFFF, data) ^ 0xFFFF_FFFF
  }

  /** The standard check value of CRC-32/IEEE: the checksum of the ASCII
      digits "123456789" is 0xCBF43926. */
  lemma CheckValue()
    ensures Checksum([0x31, 0x32, 0x33, 0x34, 0x35, 0x36, 0x37, 0x38, 0x39]) == 0xCBF4_3926
  {
    // The register after each digit, one shifted-out bit at a time.
    assert UpdateByte(0xFFFF_FFFF, (0x31 as byte)) == 0x7C23_1048 by {
      assert 0xFFFF_FFFF ^ ((0x31 as byte) as bv32) == 0xFFFF_FFCE;
      assert ShiftBit(0xFFFF_FFCE) == 0x7FFF_FFE7;
      assert ShiftBit(0x7FFF_FFE7) == 0xD247_7CD3;
      assert ShiftBit(0xD247_7CD3) == 0x849B_3D49;
      assert ShiftBit(0x849B_3D49) == 0xAFF5_1D84;
      assert ShiftBit(0xAFF5_1D84) == 0x57FA_8EC2;
      assert ShiftBit(0x57FA_8EC2) == 0x2BFD_4761;
      assert ShiftBit(0x2BFD_4761) == 0xF846_2090;
      assert ShiftBit(0xF846_2090) == 0x7C23_1048;
    }
    assert UpdateByte(0x7C23_1048, (0x32 as byte)) == 0xB0AC_BB32 by {
      assert 0x7C23_1048 ^ ((0x32 as byte) as bv32) == 0x7C23_107A;
      assert ShiftBit(0x7C23_107A) == 0x3E11_883D;
      assert ShiftBit(0x3E11_883D) == 0xF2B0_473E;
      assert ShiftBit(0xF2B0_473E) == 0x7958_239F;
      assert ShiftBit(0x7958_239F) == 0xD114_92EF;
      assert ShiftBit(0xD114_92EF) == 0x8532_CA57;
      assert ShiftBit(0x8532_CA57) == 0xAF21_E60B;
      assert ShiftBit(0xAF21_E60B) == 0xBA28_7025;
      assert ShiftBit(0xBA28_7025) == 0xB0AC_BB32;
    }
    assert UpdateByte(0xB0AC_BB32, (0x33 as byte)) == 0x77B7_9C2D by {
      assert 0xB0AC_BB32 ^ ((0x33 as byte) as bv32) == 0xB0AC_BB01;
      assert ShiftBit(0xB0AC_BB01) == 0xB5EE_DEA0;
      assert ShiftBit(0xB5EE_DEA0) == 0x5AF7_6F50;
      assert ShiftBit(0x5AF7_6F50) == 0x2D7B_B7A8;
      assert ShiftBit(0x2D7B_B7A8) == 0x16BD_DBD4;
      assert ShiftBit(0x16BD_DBD4) == 0x0B5E_EDEA;
      assert ShiftBit(0x0B5E_EDEA) == 0x05AF_76F5;
      assert ShiftBit(0x05AF_76F5) == 0xEF6F_385A;
      assert ShiftBit(0xEF6F_385A) == 0x77B7_9C2D;
    }
    assert UpdateByte(0x77B7_9C2D, (0x34 as byte)) == 0x641C_1F5C by {
      assert 0x77B7_9C2D ^ ((0x34 as byte) as bv32) == 0x77B7_9C19;
      assert ShiftBit(0x77B7_9C19) == 0xD663_4D2C;
      assert ShiftBit(0xD663_4D2C) == 0x6B31_A696;
      assert ShiftBit(0x6B31_A696) == 0x3598_D34B;
      assert ShiftBit(0x3598_D34B) == 0xF774_EA85;
      assert ShiftBit(0xF774_EA85) == 0x9602_F662;
      assert ShiftBit(0x9602_F662) == 0x4B01_7B31;
      assert ShiftBit(0x4B01_7B31) == 0xC838_3EB8;
      assert ShiftBit(0xC838_3EB8) == 0x641C_1F5C;
    }
    assert UpdateByte(0x641C_1F5C, (0x35 as byte)) == 0x340A_C5E3 by {
      assert 0x641C_1F5C ^ ((0x35 as byte) as bv32) == 0x641C_1F69;
      assert ShiftBit(0x641C_1F69) == 0xDFB6_8C94;
      assert ShiftBit(0xDFB6_8C94) == 0x6FDB_464A;
      assert ShiftBit(0x6FDB_464A) == 0x37ED_A325;
      assert ShiftBit(0x37ED_A325) == 0xF64E_52B2;
      assert ShiftBit(0xF64E_52B2) == 0x7B27_2959;
      assert ShiftBit(0x7B27_2959) == 0xD02B_178C;
      assert ShiftBit(0xD02B_178C) == 0x6815_8BC6;
      assert ShiftBit(0x6815_8BC6) == 0x340A_C5E3;
    }
    assert UpdateByte(0x340A_C5E3, (0x36 as byte)) == 0xF68D_2C9E by {
      assert 0x340A_C5E3 ^ ((0x36 as byte) as bv32) == 0x340A_C5D5;
      assert ShiftBit(0x340A_C5D5) == 0xF7BD_E1CA;
      assert ShiftBit(0xF7BD_E1CA) == 0x7BDE_F0E5;
      assert ShiftBit(0x7BDE_F0E5) == 0xD057_FB52;
      assert ShiftBit(0xD057_FB52) == 0x682B_FDA9;
      assert ShiftBit(0x682B_FDA9) == 0xD9AD_7DF4;
      assert ShiftBit(0xD9AD_7DF4) == 0x6CD6_BEFA;
      assert ShiftBit(0x6CD6_BEFA) == 0x366B_5F7D;
      assert ShiftBit(0x366B_5F7D) == 0xF68D_2C9E;
    }
    assert UpdateByte(0xF68D_2C9E, (0x37 as byte)) == 0xAFFC_9660 by {
      assert 0xF68D_2C9E ^ ((0x37 as byte) as bv32) == 0xF68D_2CA9;
      assert ShiftBit(0xF68D_2CA9) == 0x96FE_1574;
      assert ShiftBit(0x96FE_1574) == 0x4B7F_0ABA;
      assert ShiftBit(0x4B7F_0ABA) == 0x25BF_855D;
      assert ShiftBit(0x25BF_855D) == 0xFF67_418E;
      assert ShiftBit(0xFF67_418E) == 0x7FB3_A0C7;
      assert ShiftBit(0x7FB3_A0C7) == 0xD261_5343;
      assert ShiftBit(0xD261_5343) == 0x8488_2A81;
      assert ShiftBit(0x8488_2A81) == 0xAFFC_9660;
    }
    assert UpdateByte(0xAFFC_9660, (0x38 as byte)) == 0x651F_2550 by {
      assert 0xAFFC_9660 ^ ((0x38 as byte) as bv32) == 0xAFFC_9658;
      assert ShiftBit(0xAFFC_9658) == 0x57FE_4B2C;
      assert ShiftBit(0x57FE_4B2C) == 0x2BFF_2596;
      assert ShiftBit(0x2BFF_2596) == 0x15FF_92CB;
      assert ShiftBit(0x15FF_92CB) == 0xE747_4A45;
      assert ShiftBit(0xE747_4A45) == 0x9E1B_2602;
      assert ShiftBit(0x9E1B_2602) == 0x4F0D_9301;
      assert ShiftBit(0x4F0D_9301) == 0xCA3E_4AA0;
      assert ShiftBit(0xCA3E_4AA0) == 0x651F_2550;
    }
    assert UpdateByte(0x651F_2550, (0x39 as byte)) == 0x340B_C6D9 by {
      assert 0x651F_2550 ^ ((0x39 as byte) as bv32) == 0x651F_2569;
      assert ShiftBit(0x651F_2569) == 0xDF37_1194;
      assert ShiftBit(0xDF37_1194) == 0x6F9B_88CA;
      assert ShiftBit(0x6F9B_88CA) == 0x37CD_C465;
      assert ShiftBit(0x37CD_C465) == 0xF65E_6112;
      assert ShiftBit(0xF65E_6112) == 0x7B2F_3089;
      assert ShiftBit(0x7B2F_3089) == 0xD02F_1B64;
      assert ShiftBit(0xD02F_1B64) == 0x6817_8DB2;
      assert ShiftBit(0x6817_8DB2) == 0x340B_C6D9;
    }
    // Feeding the digits back to front through Update.
    assert Update(0x651F_2550, [0x39]) == 0x340B_C6D9;
    assert Update(0xAFFC_9660, [0x38, 0x39]) == 0x340B_C6D9;
    assert Update(0xF68D_2C9E, [0x37, 0x38, 0x39]) == 0x340B_C6D9;
    assert Update(0x340A_C5E3, [0x36, 0x37, 0x38, 0x39]) == 0x340B_C6D9;
    assert Update(0x641C_1F5C, [0x35, 0x36, 0x37, 0x38, 0x39]) == 0x340B_C6D9;
    assert Update(0x77B7_9C2D, [0x34, 0x35, 0x36, 0x37, 0x38, 0x39]) == 0x340B_C6D9;
    assert Update(0xB0AC_BB32, [0x33, 0x34, 0x35, 0x36, 0x37, 0x38, 0x39]) == 0x340B_C6D9;
    assert Update(0x7C23_1048, [0x32, 0x33, 0x34, 0x35, 0x36, 0x37, 0x38, 0x39]) == 0x340B_C6D9;
    assert Update(0xFFFF_FFFF, [0x31, 0x32, 0x33, 0x34, 0x35, 0x36, 0x37, 0x38, 0x39]) == 0x340B_C6D9;
  }
}
