/**
 * The claim credit-note listing. The controller picks one of two joins of
 * `gl_je_header` with `gl_je_lines` from the intermediary code, runs it, and
 * reshapes each returned row into a credit-note record by position. The two
 * variants swap the line columns they filter on with the ones the insured's
 * name is looked up from.
 */
module ClaimCreditNotes {
  import opened Rows

  /** The names the credit-note queries return their columns under, as spelled in the SQL text. */
  datatype CreditNoteColumn =
    | hd_org_code
    | hd_no
    | hd_index
    | hd_trn_code
    | hd_batch_no
    | hd_narration
    | hd_gl_date
    | hd_cur_code
    | hd_cur_rate
    | hd_lc_dr_amount
    | hd_lc_cr_amount
    | hd_fc_dr_amount
    | hd_fc_cr_amount
    | hd_type
    | hd_complete
    | hd_status
    | hd_posted
    | created_by
    | created_by_xx
    | created_age
    | hd_os_code
    | hd_os_code_xx
    | hd_canc_reason
    | hd_canc_remarks
    | hd_canc_date
    | insured
    | status_bg_color_xx

  /** A query as the controller hands it to the driver. */
  datatype CreditNoteQuery = CreditNoteQuery(
    select: seq<SelectItem<CreditNoteColumn>>,
    agentFilter: string,    // the journal-line column compared with :intermediaryCode
    clientFilter: string,   // the journal-line column compared with :clientCode
    binds: Binds)

  /**
   * One record of the response. `noteType` is the field the JSON calls
   * `type`; `receiptUrl` is built by the journal report helper.
   */
  datatype CreditNote = CreditNote(
    receiptIndex: Value,
    journalNo: Value,
    glDate: Value,
    status: Value,
    currency: Value,
    DRTotal: Value,
    CRTotal: Value,
    noteType: Value,
    posted: Value,
    narration: Value,
    insured: Value,
    receiptUrl: string)

  /** The SQL expression naming the entity whose agent and entity codes sit in the two given line columns. */
  function EntityNameOf(agentColumn: string, clientColumn: string): (expr: string)
  {
    "pkg_system_admin.get_entity_name(b." + agentColumn + ",b." + clientColumn + ")"
  }

  /**
   * The SELECT list of the query used for the agent codes "15", "70" and "25",
   * in groups of ten: the insured is named from the link columns.
   */
  const AgentVariantSelect: seq<SelectItem<CreditNoteColumn>> :=
    [ Plain(hd_org_code),
      Plain(hd_no),
      Plain(hd_index),
      Plain(hd_trn_code),
      Plain(hd_batch_no),
      Plain(hd_narration),
      Plain(hd_gl_date),
      Plain(hd_cur_code),
      Plain(hd_cur_rate),
      Plain(hd_lc_dr_amount)
    ] + [
      Plain(hd_lc_cr_amount),
      Plain(hd_fc_dr_amount),
      Plain(hd_fc_cr_amount),
      Plain(hd_type),
      Plain(hd_complete),
      Plain(hd_status),
      Computed("DECODE (hd_posted, 'Y', 'Yes', 'No')", hd_posted),
      Computed("a.created_by", created_by),
      Computed("pkg_system_admin.get_user_name (a.created_by)", created_by_xx),
      Computed("pkg_system_admin.timeago (a.created_on)", created_age)
    ] + [
      Plain(hd_os_code),
      Computed("pkg_sa.org_structure_name (hd_org_code, hd_os_code)", hd_os_code_xx),
      Plain(hd_canc_reason),
      Plain(hd_canc_remarks),
      Plain(hd_canc_date),
      Computed(EntityNameOf("LN_LINK_AENT_CODE", "LN_LINK_ENT_CODE"), insured),
      Computed("pkg_system_admin.get_system_desc ('RGBA_StatusValues', hd_status)", status_bg_color_xx)
    ]

  /**
   * The SELECT list of the query used for every other intermediary code, in
   * groups of ten: the insured is named from the agent and entity columns.
   */
  const IntermediaryVariantSelect: seq<SelectItem<CreditNoteColumn>> :=
    [ Plain(hd_org_code),
      Plain(hd_no),
      Plain(hd_index),
      Plain(hd_trn_code),
      Plain(hd_batch_no),
      Plain(hd_narration),
      Plain(hd_gl_date),
      Plain(hd_cur_code),
      Plain(hd_cur_rate),
      Plain(hd_lc_dr_amount)
    ] + [
      Plain(hd_lc_cr_amount),
      Plain(hd_fc_dr_amount),
      Plain(hd_fc_cr_amount),
      Plain(hd_type),
      Plain(hd_complete),
      Plain(hd_status),
      Computed("DECODE (hd_posted, 'Y', 'Yes', 'No')", hd_posted),
      Computed("a.created_by", created_by),
      Computed("pkg_system_admin.get_user_name (a.created_by)", created_by_xx),
      Computed("pkg_system_admin.timeago (a.created_on)", created_age)
    ] + [
      Plain(hd_os_code),
      Computed("pkg_sa.org_structure_name (hd_org_code, hd_os_code)", hd_os_code_xx),
      Plain(hd_canc_reason),
      Plain(hd_canc_remarks),
      Plain(hd_canc_date),
      Computed(EntityNameOf("LN_AENT_CODE", "LN_ENT_CODE"), insured),
      Computed("pkg_system_admin.get_system_desc ('RGBA_StatusValues', hd_status)", status_bg_color_xx)
    ]

  /** The two SQL texts return the same columns; they differ only in how the insured is found. */
  lemma VariantsReturnSameColumns()
    ensures |AgentVariantSelect| == |IntermediaryVariantSelect| == 27
    ensures Names(AgentVariantSelect) == Names(IntermediaryVariantSelect)
    ensures forall i :: 0 <= i < 27 && i != 25 ==> AgentVariantSelect[i] == IntermediaryVariantSelect[i]
  {
    assert forall i :: 0 <= i < 27 ==> AgentVariantSelect[i].name == IntermediaryVariantSelect[i].name;
  }

  /**
   * The query for a request: the agent codes filter on the lines' agent and
   * entity codes and name the insured from the link codes; every other code
   * (absent included) filters on the link codes and names the insured from
   * the agent and entity codes. Both bind the request codes and organisation "50".
   */
  function CreditNotesQuery(req: ListingRequest): (q: CreditNoteQuery)
    ensures |q.select| == 27
    ensures SelectsAgentFilter(req.intermediaryCode) ==>
              q.agentFilter == "LN_AENT_CODE" && q.clientFilter == "LN_ENT_CODE" &&
              q.select[25] == Computed(EntityNameOf("LN_LINK_AENT_CODE", "LN_LINK_ENT_CODE"), insured)
    ensures !SelectsAgentFilter(req.intermediaryCode) ==>
              q.agentFilter == "LN_LINK_AENT_CODE" && q.clientFilter == "LN_LINK_ENT_CODE" &&
              q.select[25] == Computed(EntityNameOf("LN_AENT_CODE", "LN_ENT_CODE"), insured)
    ensures q.binds.intermediaryCode == req.intermediaryCode
    ensures q.binds.clientCode == req.clientCode && q.binds.orgCode == "50"
    ensures Names(q.select) == Names(AgentVariantSelect)
  {
    VariantsReturnSameColumns();
    if SelectsAgentFilter(req.intermediaryCode) then
      CreditNoteQuery(AgentVariantSelect, "LN_AENT_CODE", "LN_ENT_CODE", BindsFor(req))
    else
      CreditNoteQuery(IntermediaryVariantSelect, "LN_LINK_AENT_CODE", "LN_LINK_ENT_CODE", BindsFor(req))
  }

  /**
   * The swap between the variants: the pair of line columns one variant
   * filters on is the pair the other names the insured from.
   */
  lemma VariantsSwapFilterAndInsured(a: ListingRequest, b: ListingRequest)
    requires SelectsAgentFilter(a.intermediaryCode) && !SelectsAgentFilter(b.intermediaryCode)
    ensures var qa, qb := CreditNotesQuery(a), CreditNotesQuery(b);
            qa.select[25].expr == EntityNameOf(qb.agentFilter, qb.clientFilter) &&
            qb.select[25].expr == EntityNameOf(qa.agentFilter, qa.clientFilter)
  {
  }

  /**
   * The reference meaning of a credit-note record: each field read from the
   * column it is named after, and the report URL built from the journal
   * number and the index, in that order.
   */
  function CreditNoteByName(select: seq<SelectItem<CreditNoteColumn>>, row: Row,
                            journalUrl: (Value, Value) -> string): CreditNote
  {
    CreditNote(
      receiptIndex := Column(select, row, hd_index),
      journalNo := Column(select, row, hd_no),
      glDate := Column(select, row, hd_gl_date),
      status := Column(select, row, hd_status),
      currency := Column(select, row, hd_cur_code),
      DRTotal := Column(select, row, hd_lc_dr_amount),
      CRTotal := Column(select, row, hd_lc_cr_amount),
      noteType := Column(select, row, hd_type),
      posted := Column(select, row, hd_posted),
      narration := Column(select, row, hd_narration),
      insured := Column(select, row, insured),
      receiptUrl := journalUrl(Column(select, row, hd_no), Column(select, row, hd_index)))
  }

  // Where each column the controller reads first occurs in the SELECT list,
  // a few columns per lemma.

  /** The journal number, index, narration, GL date and currency columns. */
  lemma CreditNoteJournalFieldsFirstAt()
    ensures FirstAt(AgentVariantSelect, hd_no, 1)
    ensures FirstAt(AgentVariantSelect, hd_index, 2)
    ensures FirstAt(AgentVariantSelect, hd_narration, 5)
    ensures FirstAt(AgentVariantSelect, hd_gl_date, 6)
    ensures FirstAt(AgentVariantSelect, hd_cur_code, 7)
  {
  }

  /** The debit and credit total and type columns. */
  lemma CreditNoteAmountFieldsFirstAt()
    ensures FirstAt(AgentVariantSelect, hd_lc_dr_amount, 9)
    ensures FirstAt(AgentVariantSelect, hd_lc_cr_amount, 10)
    ensures FirstAt(AgentVariantSelect, hd_type, 13)
  {
  }

  /** The status and posted columns. */
  lemma CreditNoteStatusFieldsFirstAt()
    ensures FirstAt(AgentVariantSelect, hd_status, 15)
    ensures FirstAt(AgentVariantSelect, hd_posted, 16)
  {
  }

  /** The insured column. */
  lemma CreditNoteInsuredFieldFirstAt()
    ensures FirstAt(AgentVariantSelect, insured, 25)
  {
  }

  /** The positions the controller reads are where those columns sit in the SELECT list. */
  lemma CreditNoteColumnPositions()
    ensures IndexOf(AgentVariantSelect, hd_no) == Some(1)
    ensures IndexOf(AgentVariantSelect, hd_index) == Some(2)
    ensures IndexOf(AgentVariantSelect, hd_narration) == Some(5)
    ensures IndexOf(AgentVariantSelect, hd_gl_date) == Some(6)
    ensures IndexOf(AgentVariantSelect, hd_cur_code) == Some(7)
    ensures IndexOf(AgentVariantSelect, hd_lc_dr_amount) == Some(9)
    ensures IndexOf(AgentVariantSelect, hd_lc_cr_amount) == Some(10)
    ensures IndexOf(AgentVariantSelect, hd_type) == Some(13)
    ensures IndexOf(AgentVariantSelect, hd_status) == Some(15)
    ensures IndexOf(AgentVariantSelect, hd_posted) == Some(16)
    ensures IndexOf(AgentVariantSelect, insured) == Some(25)
  {
    CreditNoteJournalFieldsFirstAt();
    CreditNoteAmountFieldsFirstAt();
    CreditNoteStatusFieldsFirstAt();
    CreditNoteInsuredFieldFirstAt();
    IndexOfFindsFirst(AgentVariantSelect, hd_no, 1);
    IndexOfFindsFirst(AgentVariantSelect, hd_index, 2);
    IndexOfFindsFirst(AgentVariantSelect, hd_narration, 5);
    IndexOfFindsFirst(AgentVariantSelect, hd_gl_date, 6);
    IndexOfFindsFirst(AgentVariantSelect, hd_cur_code, 7);
    IndexOfFindsFirst(AgentVariantSelect, hd_lc_dr_amount, 9);
    IndexOfFindsFirst(AgentVariantSelect, hd_lc_cr_amount, 10);
    IndexOfFindsFirst(AgentVariantSelect, hd_type, 13);
    IndexOfFindsFirst(AgentVariantSelect, hd_status, 15);
    IndexOfFindsFirst(AgentVariantSelect, hd_posted, 16);
    IndexOfFindsFirst(AgentVariantSelect, insured, 25);
  }

  /** Reading by name cannot tell the two variants apart. */
  lemma ByNameIgnoresVariant()
    ensures forall row, journalUrl ::
              CreditNoteByName(AgentVariantSelect, row, journalUrl) ==
              CreditNoteByName(IntermediaryVariantSelect, row, journalUrl)
  {
    VariantsReturnSameColumns();
    forall name: CreditNoteColumn
      ensures IndexOf(AgentVariantSelect, name) == IndexOf(IntermediaryVariantSelect, name)
    {
      IndexOfDependsOnlyOnNames(AgentVariantSelect, IntermediaryVariantSelect, name);
    }
  }

  /** The controller's positional projection of one row. */
  function ProjectCreditNote(row: Row, journalUrl: (Value, Value) -> string): (r: CreditNote)
    ensures r == CreditNoteByName(AgentVariantSelect, row, journalUrl)
  {
    CreditNoteColumnPositions();
    CreditNote(
      receiptIndex := At(row, 2),
      journalNo := At(row, 1),
      glDate := At(row, 6),
      status := At(row, 15),
      currency := At(row, 7),
      DRTotal := At(row, 9),
      CRTotal := At(row, 10),
      noteType := At(row, 13),
      posted := At(row, 16),
      narration := At(row, 5),
      insured := At(row, 25),
      receiptUrl := journalUrl(At(row, 1), At(row, 2)))
  }

  /**
   * The claim credit-notes endpoint. `execute` stands for the database and
   * `journalUrl` for the journal report-configuration helper. Whichever
   * query variant ran, every record reads its fields from the columns they
   * are named after.
   */
  function GetClaimCreditNotes(req: ListingRequest, execute: CreditNoteQuery -> Option<seq<Row>>,
                               journalUrl: (Value, Value) -> string): (r: Listing<CreditNote>)
    ensures var rows := execute(CreditNotesQuery(req));
            r.success <==> rows.Some? && |rows.value| > 0
    ensures !r.success ==> r.results == []
    ensures var rows := execute(CreditNotesQuery(req));
            r.success ==>
              |r.results| == |rows.value| &&
              forall i :: 0 <= i < |rows.value| ==>
                r.results[i] == CreditNoteByName(CreditNotesQuery(req).select, rows.value[i], journalUrl)
  {
    ByNameIgnoresVariant();
    var q := CreditNotesQuery(req);
    Envelope(execute(q), row => ProjectCreditNote(row, journalUrl))
  }

  /**
   * The variant only decides which rows come back: given the same rows, two
   * requests get the same response, whichever queries they ran.
   */
  lemma ProjectionIgnoresVariant(a: ListingRequest, b: ListingRequest,
                                 execute: CreditNoteQuery -> Option<seq<Row>>,
                                 journalUrl: (Value, Value) -> string)
    requires execute(CreditNotesQuery(a)) == execute(CreditNotesQuery(b))
    ensures GetClaimCreditNotes(a, execute, journalUrl) == GetClaimCreditNotes(b, execute, journalUrl)
  {
  }
}
