/** The text of the service's fixed content, as written in the source, and the
    proof that it has the shape the model relies on. */
module Content {
  import opened Oracle
  import opened Tables

  /** The service's content. */
  const Source: Catalog :=
    Catalog(RecommendationsOf, FindingsOf, RiskFactorsOf, CostsOf, MockScenarios)

  /** recommendationsBySeverity. */
  function RecommendationsOf(s: Severity): seq<string> {
    match s
    case Low => RecommendationsLow
    case Medium => RecommendationsMedium
    case High => RecommendationsHigh
    case Critical => RecommendationsCritical
  }

  /** findingsByCategory. */
  function FindingsOf(s: Severity): seq<string> {
    match s
    case Low => FindingsLow
    case Medium => FindingsMedium
    case High => FindingsHigh
    case Critical => FindingsCritical
  }

  /** riskFactorsByCategory. */
  function RiskFactorsOf(s: Severity): seq<string> {
    match s
    case Low => RiskFactorsLow
    case Medium => RiskFactorsMedium
    case High => RiskFactorsHigh
    case Critical => RiskFactorsCritical
  }

  /** costsBySeverity. */
  function CostsOf(s: Severity): seq<CostOption> {
    match s
    case Low => CostsLow
    case Medium => CostsMedium
    case High => CostsHigh
    case Critical => CostsCritical
  }

  lemma SourceFits()
    ensures Source.Fits()
  {
    SourceFitsAt(Low);
    SourceFitsAt(Medium);
    SourceFitsAt(High);
    SourceFitsAt(Critical);
    MockScenariosComplete();
  }

  lemma SourceFitsAt(s: Severity)
    ensures Source.FitsAt(s)
  {
    match s
    case Low => RecommendationsLowShape(); FindingsLowShape(); RiskFactorsLowShape(); CostsShape(CostsLow);
    case Medium => RecommendationsMediumShape(); FindingsMediumShape(); RiskFactorsMediumShape(); CostsShape(CostsMedium);
    case High => RecommendationsHighShape(); FindingsHighShape(); RiskFactorsHighShape(); CostsShape(CostsHigh);
    case Critical => RecommendationsCriticalShape(); FindingsCriticalShape(); RiskFactorsCriticalShape(); CostsShape(CostsCritical);
  }

  const RecommendationsLow: seq<string> :=
    [
      "Đánh răng đúng kỹ thuật 2 lần mỗi ngày với kem đánh răng có fluoride",
      "Sử dụng chỉ nha khoa hàng ngày để làm sạch kẽ răng",
      "Súc miệng bằng nước súc miệng kháng khuẩn",
      "Hạn chế đồ ngọt và nước có gas",
      "Kiểm tra răng định kỳ 6 tháng/lần",
      "Cạo vôi răng và đánh bóng định kỳ",
      "Uống đủ nước mỗi ngày"
    ]

  lemma RecommendationsLowShape()
    ensures |RecommendationsLow| == 7 && Distinct(RecommendationsLow)
  {
  }

  const RecommendationsMedium: seq<string> :=
    [
      "Điều trị viêm nướu bằng thuốc kháng sinh tại chỗ",
      "Cạo vôi răng sâu dưới nướu",
      "Sử dụng máng chống nghiến răng ban đêm",
      "Bổ sung canxi và vitamin D",
      "Tránh cắn đồ cứng và thức ăn quá nóng/lạnh",
      "Massage nướu nhẹ nhàng hàng ngày",
      "Kiểm tra răng 3 tháng/lần"
    ]

  lemma RecommendationsMediumShape()
    ensures |RecommendationsMedium| == 7 && Distinct(RecommendationsMedium)
  {
  }

  const RecommendationsHigh: seq<string> :=
    [
      "Điều trị tủy răng ngay lập tức",
      "Nhổ răng khôn để tránh biến chứng",
      "Bọc răng sứ để bảo vệ răng yếu",
      "Điều trị viêm nha chu chuyên sâu",
      "Sử dụng thuốc kháng sinh theo đơn bác sĩ",
      "Kiểm tra X-quang định kỳ",
      "Tái khám sau 1-2 tuần"
    ]

  lemma RecommendationsHighShape()
    ensures |RecommendationsHigh| == 7 && Distinct(RecommendationsHigh)
  {
  }

  const RecommendationsCritical: seq<string> :=
    [
      "Điều trị khẩn cấp trong 24-48 giờ",
      "Sử dụng kháng sinh mạnh theo đơn bác sĩ",
      "Có thể cần phẫu thuật cắt bỏ mô nhiễm trùng",
      "Theo dõi sát sao biến chứng toàn thân",
      "Cân nhắc cấy ghép implant sau điều trị",
      "Điều trị đa chuyên khoa nếu cần",
      "Tái khám hàng tuần trong giai đoạn đầu"
    ]

  lemma RecommendationsCriticalShape()
    ensures |RecommendationsCritical| == 7 && Distinct(RecommendationsCritical)
  {
  }

  const FindingsLow: seq<string> :=
    [
      "Mảng bám răng nhẹ ở vùng cổ răng",
      "Vôi răng hình thành ban đầu",
      "Viêm nướu nhẹ cục bộ",
      "Sâu răng giai đoạn đầu (D1)",
      "Mòn men răng nhẹ do ma sát",
      "Khe hở nhỏ giữa các răng",
      "Tụt nướu nhẹ ở 1-2 răng"
    ]

  lemma FindingsLowShape()
    ensures |FindingsLow| == 7 && Distinct(FindingsLow)
  {
  }

  const FindingsMedium: seq<string> :=
    [
      "Sâu răng trung bình (D2) ở răng hàm",
      "Viêm nha chu giai đoạn đầu",
      "Vôi răng tích tụ nhiều vùng cổ răng",
      "Răng khôn mọc lệch nhẹ",
      "Mòn men răng do nghiến răng ban đêm",
      "Tụt nướu trung bình ở nhiều răng",
      "Viêm nướu lan rộng"
    ]

  lemma FindingsMediumShape()
    ensures |FindingsMedium| == 7 && Distinct(FindingsMedium)
  {
  }

  const FindingsHigh: seq<string> :=
    [
      "Sâu răng sâu (D3) gần tủy răng",
      "Viêm nha chu nặng với túi nha chu sâu",
      "Viêm tủy răng cấp tính",
      "Răng khôn ảnh hưởng răng bên cạnh",
      "Mòn răng nặng do acid",
      "Tụt nướu nghiêm trọng lộ chân răng",
      "Áp xe nha chu cấp tính"
    ]

  lemma FindingsHighShape()
    ensures |FindingsHigh| == 7 && Distinct(FindingsHigh)
  {
  }

  const FindingsCritical: seq<string> :=
    [
      "Viêm tủy răng hoại tử",
      "Áp xe răng lan rộng vào xương hàm",
      "Viêm nha chu giai đoạn cuối",
      "Răng lung lay độ 3",
      "Nhiễm trùng lan rộng vùng hàm mặt",
      "Tiêu xương ổ răng nghiêm trọng",
      "Hoại tử nướu lan rộng"
    ]

  lemma FindingsCriticalShape()
    ensures |FindingsCritical| == 7 && Distinct(FindingsCritical)
  {
  }

  const RiskFactorsLow: seq<string> :=
    [
      "Vệ sinh răng miệng không đều đặn",
      "Ăn nhiều đồ ngọt",
      "Không sử dụng chỉ nha khoa",
      "Uống ít nước"
    ]

  lemma RiskFactorsLowShape()
    ensures |RiskFactorsLow| == 4 && Distinct(RiskFactorsLow)
  {
  }

  const RiskFactorsMedium: seq<string> :=
    [
      "Hút thuốc lá",
      "Stress kéo dài",
      "Nghiến răng ban đêm",
      "Chế độ ăn thiếu canxi",
      "Không kiểm tra răng định kỳ"
    ]

  lemma RiskFactorsMediumShape()
    ensures |RiskFactorsMedium| == 5 && Distinct(RiskFactorsMedium)
  {
  }

  const RiskFactorsHigh: seq<string> :=
    [
      "Tiểu đường không kiểm soát",
      "Hệ miễn dịch suy yếu",
      "Thuốc gây khô miệng",
      "Chấn thương răng",
      "Viêm nhiễm tái phát"
    ]

  lemma RiskFactorsHighShape()
    ensures |RiskFactorsHigh| == 5 && Distinct(RiskFactorsHigh)
  {
  }

  const RiskFactorsCritical: seq<string> :=
    [
      "Bệnh tim mạch",
      "Nhiễm trùng lan rộng",
      "Suy giảm miễn dịch nghiêm trọng",
      "Không điều trị kịp thời",
      "Biến chứng toàn thân"
    ]

  lemma RiskFactorsCriticalShape()
    ensures |RiskFactorsCritical| == 5 && Distinct(RiskFactorsCritical)
  {
  }

  lemma CostsShape(t: seq<CostOption>)
    requires t == CostsLow || t == CostsMedium || t == CostsHigh || t == CostsCritical
    ensures |t| == 4
    ensures forall i :: 0 <= i < |t| ==> t[i].min <= t[i].max
  {
  }

  const CostsLow: seq<CostOption> := [
    CostOption(100000, 300000, "Chi phí cạo vôi răng và vệ sinh"),
    CostOption(200000, 500000, "Chi phí trám răng composite nhỏ"),
    CostOption(150000, 400000, "Chi phí tẩy trắng răng tại nhà"),
    CostOption(50000, 150000, "Chi phí tư vấn và kiểm tra")
  ]

  const CostsMedium: seq<CostOption> := [
    CostOption(500000, 1200000, "Chi phí trám răng composite lớn"),
    CostOption(1000000, 3000000, "Chi phí điều trị viêm nha chu"),
    CostOption(300000, 800000, "Chi phí nhổ răng khôn"),
    CostOption(2000000, 4000000, "Chi phí tẩy trắng răng chuyên nghiệp")
  ]

  const CostsHigh: seq<CostOption> := [
    CostOption(1500000, 3500000, "Chi phí điều trị tủy răng phức tạp"),
    CostOption(3000000, 8000000, "Chi phí phẫu thuật nha chu"),
    CostOption(2000000, 5000000, "Chi phí bọc răng sứ"),
    CostOption(800000, 2000000, "Chi phí điều trị áp xe răng")
  ]

  const CostsCritical: seq<CostOption> := [
    CostOption(5000000, 15000000, "Chi phí cấy ghép implant"),
    CostOption(10000000, 25000000, "Chi phí phục hình toàn hàm"),
    CostOption(50000000, 120000000, "Chi phí niềng răng toàn diện"),
    CostOption(8000000, 20000000, "Chi phí điều trị phức tạp đa chuyên khoa")
  ]

  /** mockScenarios, in source order. */
  const MockScenarios: seq<Scenario> :=
    [Scenario0, Scenario1, Scenario2, Scenario3, Scenario4,
     Scenario5, Scenario6, Scenario7, Scenario8, Scenario9]

  lemma MockScenariosComplete()
    ensures |MockScenarios| == 10
    ensures forall i :: 0 <= i < |MockScenarios| ==> MockScenarios[i].Complete()
  {
    FirstScenariosComplete();
    LastScenariosComplete();
  }

  lemma FirstScenariosComplete()
    ensures Scenario0.Complete() && Scenario1.Complete() && Scenario2.Complete()
    ensures Scenario3.Complete() && Scenario4.Complete()
  {
  }

  lemma LastScenariosComplete()
    ensures Scenario5.Complete() && Scenario6.Complete() && Scenario7.Complete()
    ensures Scenario8.Complete() && Scenario9.Complete()
  {
  }

  const Scenario0: Scenario :=
    Scenario(
      diagnosis := "Sâu răng nhẹ ở răng hàm trên",
      confidence := 0.85,
      severity := Low,
      teethCondition := "Phát hiện sâu răng nhẹ ở răng số 16",
      boneStructure := "Cấu trúc xương bình thường",
      gumHealth := "Nướu khỏe mạnh",
      rootCanals := "Tủy răng còn sống",
      cavities := ["Sâu răng mặt nhai răng 16 - độ sâu 2mm"],
      periodontalStatus := "Không có dấu hiệu viêm nha chu",
      immediate := ["Trám răng composite cho răng 16"],
      shortTerm := ["Vệ sinh răng miệng 2 lần/ngày", "Sử dụng kem đánh răng có fluoride"],
      longTerm := ["Kiểm tra định kỳ 6 tháng/lần", "Vệ sinh răng miệng chuyên nghiệp"],
      riskFactors := ["Vệ sinh răng miệng kém", "Ăn nhiều đồ ngọt"])

  const Scenario1: Scenario :=
    Scenario(
      diagnosis := "Viêm nha chu giai đoạn đầu",
      confidence := 0.78,
      severity := Medium,
      teethCondition := "Răng còn tốt, có vôi răng",
      boneStructure := "Mất xương nha chu nhẹ",
      gumHealth := "Nướu sưng nhẹ, dễ chảy máu",
      rootCanals := "Tủy răng bình thường",
      cavities := [],
      periodontalStatus := "Viêm nha chu giai đoạn đầu",
      immediate := ["Cạo vôi răng toàn hàm"],
      shortTerm := ["Vệ sinh răng miệng đúng kỹ thuật", "Súc miệng kháng khuẩn"],
      longTerm := ["Kiểm tra nha chu 3 tháng/lần", "Duy trì vệ sinh răng miệng tốt"],
      riskFactors := ["Vệ sinh răng miệng kém", "Hút thuốc", "Stress"])

  const Scenario2: Scenario :=
    Scenario(
      diagnosis := "Răng khôn mọc lệch cần nhổ",
      confidence := 0.92,
      severity := High,
      teethCondition := "Răng khôn hàm dưới mọc lệch 45 độ",
      boneStructure := "Xương đủ dày, không tổn thương",
      gumHealth := "Nướu quanh răng khôn viêm nhẹ",
      rootCanals := "Chân răng gần ống thần kinh",
      cavities := [],
      periodontalStatus := "Bình thường",
      immediate := ["Chụp CT Cone Beam", "Tư vấn nhổ răng khôn"],
      shortTerm := ["Nhổ răng khôn", "Kháng sinh và giảm đau"],
      longTerm := ["Theo dõi vết thương lành", "Kiểm tra sau 1 tuần"],
      riskFactors := ["Vị trí răng khôn gần ống thần kinh", "Viêm nướu tái phát"])

  const Scenario3: Scenario :=
    Scenario(
      diagnosis := "Tủy răng viêm cần điều trị nội nha",
      confidence := 0.88,
      severity := High,
      teethCondition := "Răng số 36 có sâu răng sâu đến tủy",
      boneStructure := "Có tổn thương quanh chóp răng",
      gumHealth := "Nướu sưng tấy quanh răng bị viêm",
      rootCanals := "Tủy răng viêm, có mủ",
      cavities := ["Sâu răng sâu răng 36 - đã đến tủy"],
      periodontalStatus := "Viêm nha chu cục bộ",
      immediate := ["Mở tủy dẫn lưu", "Kháng sinh giảm viêm"],
      shortTerm := ["Điều trị tủy răng 3-4 lần", "Trám tạm thời"],
      longTerm := ["Bọc răng sứ", "Kiểm tra X-quang sau 6 tháng"],
      riskFactors := ["Sâu răng không điều trị kịp thời", "Vệ sinh răng miệng kém"])

  const Scenario4: Scenario :=
    Scenario(
      diagnosis := "Răng khỏe mạnh - không có vấn đề",
      confidence := 0.95,
      severity := Low,
      teethCondition := "Tất cả răng khỏe mạnh, không sâu răng",
      boneStructure := "Cấu trúc xương hàm bình thường",
      gumHealth := "Nướu hồng, không sưng tấy",
      rootCanals := "Tủy răng khỏe mạnh",
      cavities := [],
      periodontalStatus := "Nha chu khỏe mạnh",
      immediate := [],
      shortTerm := ["Duy trì vệ sinh răng miệng hiện tại"],
      longTerm := ["Kiểm tra định kỳ", "Vệ sinh răng chuyên nghiệp 6 tháng/lần"],
      riskFactors := [])

  const Scenario5: Scenario :=
    Scenario(
      diagnosis := "Viêm tủy răng cấp tính",
      confidence := 0.91,
      severity := Critical,
      teethCondition := "Răng số 26 viêm tủy cấp tính, đau dữ dội",
      boneStructure := "Xương quanh chóp răng có tổn thương",
      gumHealth := "Nướu sưng tấy, có mủ",
      rootCanals := "Tủy răng hoại tử, nhiễm trùng",
      cavities := ["Sâu răng sâu đến tủy răng 26"],
      periodontalStatus := "Áp xe quanh chóp răng",
      immediate := ["Cấp cứu nha khoa", "Mở tủy dẫn lưu ngay", "Kháng sinh mạnh"],
      shortTerm := ["Điều trị tủy răng khẩn cấp", "Giảm đau mạnh"],
      longTerm := ["Bọc răng sứ sau điều trị", "Theo dõi sát sao 3 tháng"],
      riskFactors := ["Nhiễm trùng lan rộng", "Sốc nhiễm trùng", "Mất răng"])

  const Scenario6: Scenario :=
    Scenario(
      diagnosis := "Viêm nha chu nặng với mất xương",
      confidence := 0.83,
      severity := High,
      teethCondition := "Nhiều răng lung lay, có vôi răng nhiều",
      boneStructure := "Mất xương nha chu nghiêm trọng 40-60%",
      gumHealth := "Nướu tụt, chảy máu, có mủ",
      rootCanals := "Tủy răng còn sống nhưng bị ảnh hưởng",
      cavities := ["Sâu răng cổ răng do tụt nướu"],
      periodontalStatus := "Viêm nha chu nặng giai đoạn 3",
      immediate := ["Cạo vôi sâu toàn hàm", "Kháng sinh điều trị"],
      shortTerm := ["Phẫu thuật nha chu", "Ghép xương nha chu"],
      longTerm := ["Duy trì điều trị nha chu", "Có thể cần nhổ răng và cấy ghép"],
      riskFactors := ["Mất răng vĩnh viễn", "Nhiễm trùng toàn thân", "Bệnh tim mạch"])

  const Scenario7: Scenario :=
    Scenario(
      diagnosis := "Răng mọc chen chúc cần niềng răng",
      confidence := 0.87,
      severity := Medium,
      teethCondition := "Răng mọc chen chúc, không đều",
      boneStructure := "Xương hàm bình thường",
      gumHealth := "Nướu khỏe nhưng khó vệ sinh",
      rootCanals := "Tủy răng bình thường",
      cavities := ["Sâu răng nhẹ do khó vệ sinh"],
      periodontalStatus := "Viêm nướu nhẹ do vệ sinh khó khăn",
      immediate := ["Vệ sinh răng miệng kỹ lưỡng"],
      shortTerm := ["Tư vấn niềng răng", "Lập kế hoạch điều trị chỉnh nha"],
      longTerm := ["Niềng răng 18-24 tháng", "Duy trì kết quả sau niềng"],
      riskFactors := ["Sâu răng do vệ sinh khó", "Viêm nướu tái phát"])

  const Scenario8: Scenario :=
    Scenario(
      diagnosis := "Răng bị gãy do chấn thương",
      confidence := 0.94,
      severity := High,
      teethCondition := "Răng cửa trên bị gãy 1/3 thân răng",
      boneStructure := "Xương ổ răng còn nguyên vẹn",
      gumHealth := "Nướu bị thương nhẹ",
      rootCanals := "Tủy răng có thể bị tổn thương",
      cavities := [],
      periodontalStatus := "Bình thường",
      immediate := ["Kiểm tra tủy răng", "Bảo vệ tủy răng"],
      shortTerm := ["Trám composite hoặc veneer", "Theo dõi tủy răng"],
      longTerm := ["Có thể cần điều trị tủy", "Bọc răng sứ thẩm mỹ"],
      riskFactors := ["Tủy răng chết", "Nhiễm trùng", "Mất thẩm mỹ"])

  const Scenario9: Scenario :=
    Scenario(
      diagnosis := "Khô miệng và sâu răng nhiều",
      confidence := 0.79,
      severity := Medium,
      teethCondition := "Nhiều răng bị sâu, men răng yếu",
      boneStructure := "Xương bình thường",
      gumHealth := "Nướu khô, dễ bị kích ứng",
      rootCanals := "Một số tủy răng bị ảnh hưởng",
      cavities := ["Sâu răng nhiều vị trí", "Sâu răng cổ răng"],
      periodontalStatus := "Viêm nướu nhẹ do khô miệng",
      immediate := ["Điều trị sâu răng ưu tiên", "Tăng cường nước bọt"],
      shortTerm := ["Trám răng nhiều vị trí", "Sử dụng nước súc miệng đặc biệt"],
      longTerm := ["Điều trị nguyên nhân khô miệng", "Bảo vệ men răng lâu dài"],
      riskFactors := ["Thuốc gây khô miệng", "Bệnh toàn thân", "Tuổi cao"])
}
