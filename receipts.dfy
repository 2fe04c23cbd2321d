/**
 * The accounts-receivable receipts listing. The controller picks one of two
 * queries over `ar_receipts_header` from the intermediary code, runs it, and
 * reshapes each returned row into a receipt record by position.
 */
module Receipts {
  import opened Rows

  /** The names the receipts queries return their columns under, as spelled in the SQL text. */
  datatype ReceiptColumn =
    | hd_org_code
    | hd_index
    | hd_no
    | hd_trn_code
    | hd_remitter_from
    | hd_remitter_addr1
    | hd_remitter_addr2
    | hd_remitter_addr3
    | hd_mode
    | hd_batch_no
    | hd_type
    | hd_complete
    | hd_narration
    | hd_gl_date
    | hd_fin_code
    | hd_per_code
    | hd_cur_code
    | hd_cur_date
    | hd_cur_rate
    | hd_cur_rate_mode
    | hd_cur_rate_type
    | hd_lc_amount
    | hd_fc_amount
    | hd_bank_code
    | hd_bank_branch
    | hd_cust_doc_ref_no
    | hd_receipt_mgl_code
    | hd_receipt_mgl_code_xx
    | hd_receipt_sgl_code
    | hd_receipt_sgl_code_xx
    | hd_source
    | hd_chq_no
    | hd_chq_date
    | hd_chq_bank
    | hd_chq_bank_branch
    | hd_banked
    | hd_banking_batch_no
    | hd_posted
    | hd_holds
    | hd_status
    | hd_gen_gl
    | created_by
    | created_by_xx
    | created_on
    | hd_cheque_catg
    | hd_chq_type
    | hd_chq_status
    | hd_bnk_picked
    | hd_doc_code
    | hd_chg_fc_amt
    | hd_chg_lc_amt
    | hd_charge
    | hd_os_code
    | hd_drcr_type
    | hd_cust_doc_ref_type
    | hd_cust_doc_ref_index
    | hd_bnk_bank_code
    | hd_bnk_bank_code_xx
    | hd_bnk_branch_code
    | hd_bnk_branch_code_xx
    | hd_bnk_bank_ac
    | hd_bnk_bank_ac_xx
    | hd_category
    | hd_canc_reason
    | hd_canc_remarks
    | hd_paying_for
    | status_bg_color_xx

  /** A query as the controller hands it to the driver. */
  datatype ReceiptQuery = ReceiptQuery(
    select: seq<SelectItem<ReceiptColumn>>,
    agentFilter: string,    // the column compared with :intermediaryCode
    clientFilter: string,   // the column compared with :clientCode
    binds: Binds)

  /** One record of the response. `receiptUrl` is built by the report helper. */
  datatype Receipt = Receipt(
    reportIndex: Value,
    receiptNo: Value,
    from: Value,
    narration: Value,
    amount: string,
    GLDate: Value,
    receiptMode: Value,
    status: Value,
    posted: Value,
    receiptUrl: string)

  /**
   * The SELECT list of the query used for the agent codes "15", "70" and "25",
   * written in groups of ten items.
   */
  const AgentVariantSelect: seq<SelectItem<ReceiptColumn>> :=
    [ Plain(hd_org_code),
      Plain(hd_index),
      Plain(hd_no),
      Plain(hd_trn_code),
      Plain(hd_remitter_from),
      Plain(hd_remitter_addr1),
      Plain(hd_remitter_addr2),
      Plain(hd_remitter_addr3),
      Plain(hd_mode),
      Plain(hd_batch_no)
    ] + [
      Plain(hd_type),
      Plain(hd_complete),
      Plain(hd_narration),
      Plain(hd_gl_date),
      Plain(hd_fin_code),
      Plain(hd_per_code),
      Plain(hd_cur_code),
      Plain(hd_cur_date),
      Plain(hd_cur_rate),
      Plain(hd_cur_rate_mode)
    ] + [
      Plain(hd_cur_rate_type),
      Plain(hd_lc_amount),
      Plain(hd_fc_amount),
      Plain(hd_bank_code),
      Plain(hd_bank_branch),
      Plain(hd_cust_doc_ref_no),
      Plain(hd_receipt_mgl_code),
      Computed("pkg_gl.get_main_acnt_name (hd_org_code, hd_receipt_mgl_code)", hd_receipt_mgl_code_xx),
      Plain(hd_receipt_sgl_code),
      Computed("pkg_gl.get_sub_acnt_name (hd_org_code, hd_receipt_mgl_code, hd_receipt_sgl_code)", hd_receipt_sgl_code_xx)
    ] + [
      Plain(hd_source),
      Plain(hd_chq_no),
      Plain(hd_chq_date),
      Plain(hd_chq_bank),
      Plain(hd_chq_bank_branch),
      Plain(hd_banked),
      Plain(hd_banking_batch_no),
      Plain(hd_posted),
      Plain(hd_holds),
      Plain(hd_status)
    ] + [
      Plain(hd_gen_gl),
      Plain(created_by),
      Computed("pkg_system_admin.get_user_name (created_by)", created_by_xx),
      Plain(created_on),
      Plain(hd_cheque_catg),
      Plain(hd_chq_type),
      Plain(hd_chq_status),
      Plain(hd_bnk_picked),
      Plain(hd_doc_code),
      Plain(hd_chg_fc_amt)
    ] + [
      Plain(hd_chg_lc_amt),
      Plain(hd_charge),
      Plain(hd_os_code),
      Plain(hd_drcr_type),
      Plain(hd_cust_doc_ref_type),
      Plain(hd_cust_doc_ref_index),
      Plain(hd_bnk_bank_code),
      Computed("pkg_gl.get_bank_name (hd_bnk_bank_code)", hd_bnk_bank_code_xx),
      Plain(hd_bnk_branch_code),
      Computed("pkg_gl.get_bank_brn_name (hd_bnk_bank_code, hd_bnk_branch_code)", hd_bnk_branch_code_xx)
    ] + [
      Plain(hd_bnk_bank_ac),
      Computed("pkg_gl.get_bankac_name (hd_bnk_bank_code, hd_bnk_branch_code, hd_bnk_bank_ac)", hd_bnk_bank_ac_xx),
      Plain(hd_category),
      Plain(hd_canc_reason),
      Plain(hd_canc_remarks),
      Plain(hd_paying_for),
      Computed("pkg_system_admin.get_system_desc ('RGBA_StatusValues', hd_status)", status_bg_color_xx)
    ]

  /** The SELECT list of the query used for every other intermediary code, in groups of ten. */
  const IntermediaryVariantSelect: seq<SelectItem<ReceiptColumn>> :=
    [ Plain(hd_org_code),
      Plain(hd_index),
      Plain(hd_no),
      Plain(hd_trn_code),
      Plain(hd_remitter_from),
      Plain(hd_remitter_addr1),
      Plain(hd_remitter_addr2),
      Plain(hd_remitter_addr3),
      Plain(hd_mode),
      Plain(hd_batch_no)
    ] + [
      Plain(hd_type),
      Plain(hd_complete),
      Plain(hd_narration),
      Plain(hd_gl_date),
      Plain(hd_fin_code),
      Plain(hd_per_code),
      Plain(hd_cur_code),
      Plain(hd_cur_date),
      Plain(hd_cur_rate),
      Plain(hd_cur_rate_mode)
    ] + [
      Plain(hd_cur_rate_type),
      Plain(hd_lc_amount),
      Plain(hd_fc_amount),
      Plain(hd_bank_code),
      Plain(hd_bank_branch),
      Plain(hd_cust_doc_ref_no),
      Plain(hd_receipt_mgl_code),
      Computed("pkg_gl.get_main_acnt_name (hd_org_code, hd_receipt_mgl_code)", hd_receipt_mgl_code_xx),
      Plain(hd_receipt_sgl_code),
      Computed("pkg_gl.get_sub_acnt_name (hd_org_code, hd_receipt_mgl_code, hd_receipt_sgl_code)", hd_receipt_sgl_code_xx)
    ] + [
      Plain(hd_source),
      Plain(hd_chq_no),
      Plain(hd_chq_date),
      Plain(hd_chq_bank),
      Plain(hd_chq_bank_branch),
      Plain(hd_banked),
      Plain(hd_banking_batch_no),
      Plain(hd_posted),
      Plain(hd_holds),
      Plain(hd_status)
    ] + [
      Plain(hd_gen_gl),
      Plain(created_by),
      Computed("pkg_system_admin.get_user_name (created_by)", created_by_xx),
      Plain(created_on),
      Plain(hd_cheque_catg),
      Plain(hd_chq_type),
      Plain(hd_chq_status),
      Plain(hd_bnk_picked),
      Plain(hd_doc_code),
      Plain(hd_chg_fc_amt)
    ] + [
      Plain(hd_chg_lc_amt),
      Plain(hd_charge),
      Plain(hd_os_code),
      Plain(hd_drcr_type),
      Plain(hd_cust_doc_ref_type),
      Plain(hd_cust_doc_ref_index),
      Plain(hd_bnk_bank_code),
      Computed("pkg_gl.get_bank_name (hd_bnk_bank_code)", hd_bnk_bank_code_xx),
      Plain(hd_bnk_branch_code),
      Computed("pkg_gl.get_bank_brn_name (hd_bnk_bank_code, hd_bnk_branch_code)", hd_bnk_branch_code_xx)
    ] + [
      Plain(hd_bnk_bank_ac),
      Computed("pkg_gl.get_bankac_name (hd_bnk_bank_code, hd_bnk_branch_code, hd_bnk_bank_ac)", hd_bnk_bank_ac_xx),
      Plain(hd_category),
      Plain(hd_canc_reason),
      Plain(hd_canc_remarks),
      Plain(hd_paying_for),
      Computed("pkg_system_admin.get_system_desc ('RGBA_StatusValues', hd_status)", status_bg_color_xx)
    ]

  /** The two SQL texts select the same items in the same order. */
  lemma VariantsSelectSameColumns()
    ensures AgentVariantSelect == IntermediaryVariantSelect
    ensures |AgentVariantSelect| == 67
  {
  }

  /**
   * The query for a request: the agent codes filter on the header's agent
   * and entity codes, every other code (absent included) on the intermediary
   * agent and entity codes; both bind the request codes and organisation "50".
   */
  function ReceiptsQuery(req: ListingRequest): (q: ReceiptQuery)
    ensures SelectsAgentFilter(req.intermediaryCode) ==>
              q.agentFilter == "hd_aent_code" && q.clientFilter == "hd_ent_code"
    ensures !SelectsAgentFilter(req.intermediaryCode) ==>
              q.agentFilter == "hd_int_aent_code" && q.clientFilter == "hd_int_ent_code"
    ensures q.binds.intermediaryCode == req.intermediaryCode
    ensures q.binds.clientCode == req.clientCode && q.binds.orgCode == "50"
    ensures q.select == AgentVariantSelect
  {
    VariantsSelectSameColumns();
    if SelectsAgentFilter(req.intermediaryCode) then
      ReceiptQuery(AgentVariantSelect, "hd_aent_code", "hd_ent_code", BindsFor(req))
    else
      ReceiptQuery(IntermediaryVariantSelect, "hd_int_aent_code", "hd_int_ent_code", BindsFor(req))
  }

  /**
   * The reference meaning of a receipt record: each field read from the
   * column it is named after, the amount as text, and the report URL built
   * from the receipt number and the index, in that order.
   */
  function ReceiptByName(select: seq<SelectItem<ReceiptColumn>>, row: Row,
                         reportUrl: (Value, Value) -> string, toText: Value -> string): Receipt
  {
    Receipt(
      reportIndex := Column(select, row, hd_index),
      receiptNo := Column(select, row, hd_no),
      from := Column(select, row, hd_remitter_from),
      narration := Column(select, row, hd_narration),
      amount := toText(Column(select, row, hd_lc_amount)),
      GLDate := Column(select, row, hd_gl_date),
      receiptMode := Column(select, row, hd_mode),
      status := Column(select, row, hd_status),
      posted := Column(select, row, hd_posted),
      receiptUrl := reportUrl(Column(select, row, hd_no), Column(select, row, hd_index)))
  }

  // Where each column the controller reads first occurs in the SELECT list,
  // a few columns per lemma.

  /** The index, number, remitter and mode columns. */
  lemma ReceiptNumberFieldsFirstAt()
    ensures FirstAt(AgentVariantSelect, hd_index, 1)
    ensures FirstAt(AgentVariantSelect, hd_no, 2)
    ensures FirstAt(AgentVariantSelect, hd_remitter_from, 4)
    ensures FirstAt(AgentVariantSelect, hd_mode, 8)
  {
  }

  /** The narration and GL date columns. */
  lemma ReceiptNarrationFieldsFirstAt()
    ensures FirstAt(AgentVariantSelect, hd_narration, 12)
    ensures FirstAt(AgentVariantSelect, hd_gl_date, 13)
  {
  }

  /** The local-currency amount column. */
  lemma ReceiptAmountFieldFirstAt()
    ensures FirstAt(AgentVariantSelect, hd_lc_amount, 21)
  {
  }

  /** The posted flag column. */
  lemma ReceiptPostedFieldFirstAt()
    ensures FirstAt(AgentVariantSelect, hd_posted, 37)
  {
  }

  /** The status column. */
  lemma ReceiptStatusFieldFirstAt()
    ensures FirstAt(AgentVariantSelect, hd_status, 39)
  {
  }

  /** The positions the controller reads are where those columns sit in the SELECT list. */
  lemma ReceiptColumnPositions()
    ensures IndexOf(AgentVariantSelect, hd_index) == Some(1)
    ensures IndexOf(AgentVariantSelect, hd_no) == Some(2)
    ensures IndexOf(AgentVariantSelect, hd_remitter_from) == Some(4)
    ensures IndexOf(AgentVariantSelect, hd_mode) == Some(8)
    ensures IndexOf(AgentVariantSelect, hd_narration) == Some(12)
    ensures IndexOf(AgentVariantSelect, hd_gl_date) == Some(13)
    ensures IndexOf(AgentVariantSelect, hd_lc_amount) == Some(21)
    ensures IndexOf(AgentVariantSelect, hd_posted) == Some(37)
    ensures IndexOf(AgentVariantSelect, hd_status) == Some(39)
  {
    ReceiptNumberFieldsFirstAt();
    ReceiptNarrationFieldsFirstAt();
    ReceiptAmountFieldFirstAt();
    ReceiptPostedFieldFirstAt();
    ReceiptStatusFieldFirstAt();
    IndexOfFindsFirst(AgentVariantSelect, hd_index, 1);
    IndexOfFindsFirst(AgentVariantSelect, hd_no, 2);
    IndexOfFindsFirst(AgentVariantSelect, hd_remitter_from, 4);
    IndexOfFindsFirst(AgentVariantSelect, hd_mode, 8);
    IndexOfFindsFirst(AgentVariantSelect, hd_narration, 12);
    IndexOfFindsFirst(AgentVariantSelect, hd_gl_date, 13);
    IndexOfFindsFirst(AgentVariantSelect, hd_lc_amount, 21);
    IndexOfFindsFirst(AgentVariantSelect, hd_posted, 37);
    IndexOfFindsFirst(AgentVariantSelect, hd_status, 39);
  }

  /** The controller's positional projection of one row. */
  function ProjectReceipt(row: Row, reportUrl: (Value, Value) -> string, toText: Value -> string): (r: Receipt)
    ensures r == ReceiptByName(AgentVariantSelect, row, reportUrl, toText)
  {
    ReceiptColumnPositions();
    Receipt(
      reportIndex := At(row, 1),
      receiptNo := At(row, 2),
      from := At(row, 4),
      narration := At(row, 12),
      amount := toText(At(row, 21)),
      GLDate := At(row, 13),
      receiptMode := At(row, 8),
      status := At(row, 39),
      posted := At(row, 37),
      receiptUrl := reportUrl(At(row, 2), At(row, 1)))
  }

  /**
   * The receipts endpoint. `execute` stands for the database, `reportUrl` for
   * the report-configuration helper and `toText` for JavaScript's `String`.
   * Whichever query variant ran, every record reads its fields from the
   * columns they are named after.
   */
  function GetReceipts(req: ListingRequest, execute: ReceiptQuery -> Option<seq<Row>>,
                       reportUrl: (Value, Value) -> string, toText: Value -> string): (r: Listing<Receipt>)
    ensures var rows := execute(ReceiptsQuery(req));
            r.success <==> rows.Some? && |rows.value| > 0
    ensures !r.success ==> r.results == []
    ensures var rows := execute(ReceiptsQuery(req));
            r.success ==>
              |r.results| == |rows.value| &&
              forall i :: 0 <= i < |rows.value| ==>
                r.results[i] == ReceiptByName(ReceiptsQuery(req).select, rows.value[i], reportUrl, toText)
  {
    var q := ReceiptsQuery(req);
    Envelope(execute(q), row => ProjectReceipt(row, reportUrl, toText))
  }

  /**
   * The variant only decides which rows come back: given the same rows, two
   * requests get the same response, whichever queries they ran.
   */
  lemma ProjectionIgnoresVariant(a: ListingRequest, b: ListingRequest,
                                 execute: ReceiptQuery -> Option<seq<Row>>,
                                 reportUrl: (Value, Value) -> string, toText: Value -> string)
    requires execute(ReceiptsQuery(a)) == execute(ReceiptsQuery(b))
    ensures GetReceipts(a, execute, reportUrl, toText) == GetReceipts(b, execute, reportUrl, toText)
  {
  }
}
