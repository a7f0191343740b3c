/** The file of an engine that knows nothing yet, byte for byte. */
module EmptyFile {
  import opened Bytes
  import opened FabricTypes
  import opened FileStates
  import opened KnownAnswers
  import opened RecordBytes

  function Zeros(n: nat): (z: seq<byte>)
    ensures |z| == n && forall i :: 0 <= i < n ==> z[i] == 0
  {
    seq(n, _ => 0)
  }

  /** Magic, version 1, epoch 1 and four empty tables. */
  const EMPTY_BODY: seq<byte> := [0x44, 0x42, 0x41, 0x46, 1, 0, 0, 0, 1] + Zeros(23)

  const EMPTY_FILE: seq<byte> := EMPTY_BODY + [0x10, 0x74, 0x8e, 0xcb, 0x0d, 0x82, 0x44, 0xb2]

  lemma EmptyFile1(d: seq<byte>) returns (e: seq<byte>)
    requires Sum(d, 0xcb_f29c_e484_2223, 2, 5)
    ensures e == d + [0x44, 0x42, 0x41, 0x46] && Sum(e, 0x8f_56e6_728d_da79, 8, 0)
  {
    e := d;
    e := Step(e, 0xcb_f29c_e484_2223, 2, 5, 4, 4, 6, 1, 0xcb_f29c_e5de, 0xaf_63f9_4c86_021d, 13, 3);
    e := Step(e, 0xaf_63f9_4c86_021d, 13, 3, 4, 2, 9, 1, 0xaf_63f9_4db0, 0x08_fe2e_07b5_983d, 6, 3);
    e := Step(e, 0x08_fe2e_07b5_983d, 6, 3, 4, 1, 2, 2, 0x08_fe2e_07c4, 0xe0_2559_1991_afe0, 12, 6);
    e := Step(e, 0xe0_2559_1991_afe0, 12, 6, 4, 6, 8, 0, 0xe0_2559_1b0e, 0x8f_56e6_728d_da79, 8, 0);
  }

  lemma EmptyFile2(d: seq<byte>) returns (e: seq<byte>)
    requires Sum(d, 0x8f_56e6_728d_da79, 8, 0)
    ensures e == d + [0x1, 0, 0, 0] && Sum(e, 0x32_43e2_2347_ae8e, 1, 1)
  {
    e := d;
    e := Step(e, 0x8f_56e6_728d_da79, 8, 0, 0, 1, 8, 1, 0x8f_56e6_7381, 0x6b_2315_a70a_3c76, 3, 3);
    e := Step(e, 0x6b_2315_a70a_3c76, 3, 3, 0, 0, 3, 3, 0x6b_2315_a7c0, 0x49_13fd_d664_bcd8, 10, 9);
    e := Step(e, 0x49_13fd_d664_bcd8, 10, 9, 0, 0, 10, 9, 0x49_13fd_d6e0, 0xe9_d0fc_4d2c_e427, 2, 11);
    e := Step(e, 0xe9_d0fc_4d2c_e427, 2, 11, 0, 0, 2, 11, 0xe9_d0fc_4eba, 0x32_43e2_2347_ae8e, 1, 1);
  }

  lemma EmptyFile3(d: seq<byte>) returns (e: seq<byte>)
    requires Sum(d, 0x32_43e2_2347_ae8e, 1, 1)
    ensures e == d + [0x1, 0, 0, 0] && Sum(e, 0x2e_6ea9_fc93_8237, 1, 0)
  {
    e := d;
    e := Step(e, 0x32_43e2_2347_ae8e, 1, 1, 0, 1, 1, 0, 0x32_43e2_239d, 0x17_e751_f2cd_9b65, 3, 0);
    e := Step(e, 0x17_e751_f2cd_9b65, 3, 0, 0, 0, 3, 0, 0x17_e751_f2f6, 0x39_756f_935f_0cf0, 9, 0);
    e := Step(e, 0x39_756f_935f_0cf0, 9, 0, 0, 0, 9, 0, 0x39_756f_93c0, 0xaf_7d27_6a82_fcc4, 11, 0);
    e := Step(e, 0xaf_7d27_6a82_fcc4, 11, 0, 0, 0, 11, 0, 0xaf_7d27_6bad, 0x2e_6ea9_fc93_8237, 1, 0);
  }

  lemma EmptyFile4(d: seq<byte>) returns (e: seq<byte>)
    requires Sum(d, 0x2e_6ea9_fc93_8237, 1, 0)
    ensures e == d + [0, 0, 0, 0] && Sum(e, 0x6b_0c85_57f3_80f0, 1, 0)
  {
    e := d;
    e := Step(e, 0x2e_6ea9_fc93_8237, 1, 0, 0, 0, 1, 0, 0x2e_6ea9_fce2, 0x68_41e8_2ea6_4390, 3, 0);
    e := Step(e, 0x68_41e8_2ea6_4390, 3, 0, 0, 0, 3, 0, 0x68_41e8_2f57, 0x6b_8db7_4484_ce01, 9, 0);
    e := Step(e, 0x6b_8db7_4484_ce01, 9, 0, 0, 0, 9, 0, 0x6b_8db7_453b, 0x8f_cff9_6daa_0ca7, 11, 0);
    e := Step(e, 0x8f_cff9_6daa_0ca7, 11, 0, 0, 0, 11, 0, 0x8f_cff9_6e9e, 0x6b_0c85_57f3_80f0, 1, 0);
  }

  lemma EmptyFile5(d: seq<byte>) returns (e: seq<byte>)
    requires Sum(d, 0x6b_0c85_57f3_80f0, 1, 0)
    ensures e == d + [0, 0, 0, 0] && Sum(e, 0x97_f918_7aaf_a3b9, 1, 0)
  {
    e := d;
    e := Step(e, 0x6b_0c85_57f3_80f0, 1, 0, 0, 0, 1, 0, 0x6b_0c85_58a9, 0x67_36a4_72c4_17eb, 3, 0);
    e := Step(e, 0x67_36a4_72c4_17eb, 3, 0, 0, 0, 3, 0, 0x67_36a4_7373, 0x79_c49f_0334_a4a2, 9, 0);
    e := Step(e, 0x79_c49f_0334_a4a2, 9, 0, 0, 0, 9, 0, 0x79_c49f_0403, 0x8d_bcc2_7273_c03a, 11, 0);
    e := Step(e, 0x8d_bcc2_7273_c03a, 11, 0, 0, 0, 11, 0, 0x8d_bcc2_7364, 0x97_f918_7aaf_a3b9, 1, 0);
  }

  lemma EmptyFile6(d: seq<byte>) returns (e: seq<byte>)
    requires Sum(d, 0x97_f918_7aaf_a3b9, 1, 0)
    ensures e == d + [0, 0, 0, 0] && Sum(e, 0x71_8cdc_0a67_f392, 1, 0)
  {
    e := d;
    e := Step(e, 0x97_f918_7aaf_a3b9, 1, 0, 0, 0, 1, 0, 0x97_f918_7bb1, 0xdf_fda8_7873_3376, 3, 0);
    e := Step(e, 0xdf_fda8_7873_3376, 3, 0, 0, 0, 3, 0, 0xdf_fda8_79ef, 0xcf_7b74_abc0_71d3, 9, 0);
    e := Step(e, 0xcf_7b74_abc0_71d3, 9, 0, 0, 0, 9, 0, 0xcf_7b74_ad21, 0x00_9acf_d801_6a7d, 11, 0);
    e := Step(e, 0x00_9acf_d801_6a7d, 11, 0, 0, 0, 11, 0, 0x00_9acf_d802, 0x71_8cdc_0a67_f392, 1, 0);
  }

  lemma EmptyFile7(d: seq<byte>) returns (e: seq<byte>)
    requires Sum(d, 0x71_8cdc_0a67_f392, 1, 0)
    ensures e == d + [0, 0, 0, 0] && Sum(e, 0x48_d2ef_3a5d_897b, 1, 0)
  {
    e := d;
    e := Step(e, 0x71_8cdc_0a67_f392, 1, 0, 0, 0, 1, 0, 0x71_8cdc_0b28, 0xe5_ebf5_aea2_e131, 3, 0);
    e := Step(e, 0xe5_ebf5_aea2_e131, 3, 0, 0, 0, 3, 0, 0xe5_ebf5_b029, 0x91_23a7_bec4_a694, 9, 0);
    e := Step(e, 0x91_23a7_bec4_a694, 9, 0, 0, 0, 9, 0, 0x91_23a7_bfbb, 0x46_2a99_2827_0e70, 11, 0);
    e := Step(e, 0x46_2a99_2827_0e70, 11, 0, 0, 0, 11, 0, 0x46_2a99_289e, 0x48_d2ef_3a5d_897b, 1, 0);
  }

  lemma EmptyFile8(d: seq<byte>) returns (e: seq<byte>)
    requires Sum(d, 0x48_d2ef_3a5d_897b, 1, 0)
    ensures e == d + [0, 0, 0, 0] && Sum(e, 0xb2_4482_0dcb_8e74, 1, 0)
  {
    e := d;
    e := Step(e, 0x48_d2ef_3a5d_897b, 1, 0, 0, 0, 1, 0, 0x48_d2ef_3ad9, 0x47_e790_2cf0_9c1c, 3, 0);
    e := Step(e, 0x47_e790_2cf0_9c1c, 3, 0, 0, 0, 3, 0, 0x47_e790_2d6a, 0xca_962c_5cd9_43e5, 9, 0);
    e := Step(e, 0xca_962c_5cd9_43e5, 9, 0, 0, 0, 9, 0, 0xca_962c_5e31, 0x81_12f1_c52e_5f13, 11, 0);
    e := Step(e, 0x81_12f1_c52e_5f13, 11, 0, 0, 0, 11, 0, 0x81_12f1_c609, 0xb2_4482_0dcb_8e74, 1, 0);
  }

  lemma EmptyFileSum()
    ensures Fnv(EMPTY_BODY) == 0xb244_820d_cb8e_7410
  {
    var d := [];
    assert Fnv(d) == 0xcbf2_9ce4_8422_2325;
    d := EmptyFile1(d);
    d := EmptyFile2(d);
    d := EmptyFile3(d);
    d := EmptyFile4(d);
    d := EmptyFile5(d);
    d := EmptyFile6(d);
    d := EmptyFile7(d);
    d := EmptyFile8(d);
    assert d == EMPTY_BODY;
  }

  lemma HeadBytes()
    ensures Half(0x4641_4244) + Half(1) == [0x44, 0x42, 0x41, 0x46, 1, 0, 0, 0]
  {
    assert Le(2, 0x4641) == [0x41, 0x46];
    assert Le(4, 0x4641_4244) == [0x44, 0x42] + Le(2, 0x4641);
    assert Le(4, 1) == [1, 0, 0, 0];
  }

  lemma {:induction false} LeZero(n: nat)
    ensures Le(n, 0) == Zeros(n)
  {
    if n > 0 { LeZero(n - 1); }
  }

  lemma LeByte(n: nat, x: byte)
    requires n > 0
    ensures Le(n, x) == [x] + Zeros(n - 1)
  {
    LeZero(n - 1);
  }

  lemma NoneListed<T>(bytes: T -> seq<byte>, n: nat)
    requires n == 4
    ensures Listed(bytes, []) == Zeros(n)
  {
    LeZero(n);
  }

  lemma Laid(head: seq<byte>, epoch: seq<byte>, z: seq<byte>)
    requires head == [0x44, 0x42, 0x41, 0x46, 1, 0, 0, 0] && epoch == [1] + Zeros(7) && z == Zeros(4)
    ensures head + (epoch + (z + (z + (z + z)))) == EMPTY_BODY
  {
  }

  lemma EmptyBodyBytes()
    ensures FileBytes(WireDurable(1, [], [], [], [])) == EMPTY_BODY
  {
    HeadBytes();
    LeByte(8, 1);
    NoneListed(NodeBytes, 4);
    NoneListed(ResourceBytes, 4);
    NoneListed(PolicyBytes, 4);
    NoneListed(CompositionBytes, 4);
    Laid(Half(0x4641_4244) + Half(1), Word(1), Zeros(4));
  }

  lemma EmptyTrailerBytes()
    ensures Le(8, 0xb244_820d_cb8e_7410) == [0x10, 0x74, 0x8e, 0xcb, 0x0d, 0x82, 0x44, 0xb2]
  {
    assert Le(4, 0xb244_820d) == [0x0d, 0x82, 0x44, 0xb2];
    assert Le(6, 0xb244_820d_cb8e) == [0x8e, 0xcb] + Le(4, 0xb244_820d);
  }

  /** The 40 bytes of that file; they load back as what was saved. */
  lemma EmptyFileBytes()
    ensures StateImage(WireDurable(1, [], [], [], [])) == EMPTY_FILE && |EMPTY_FILE| == 40
    ensures StateOf(EMPTY_FILE) == Some(WireDurable(1, [], [], [], []))
  {
    var w := WireDurable(1, [], [], [], []);
    StateImageBytes(w);
    EmptyBodyBytes();
    EmptyFileSum();
    EmptyTrailerBytes();
    SavedStateLoads(w);
    assert ForgetDurable(w) == w;
  }
}
