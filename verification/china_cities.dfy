/** The city table: each province, in declaration order, with its cities
    in order, as the source data lists them. */
module ChinaCities {
  import opened Wrappers
  import opened Cities

  /** 北京市. */
  const Beijing: seq<City> := [
    City("北京", "101010100", "110000", "北京市")
  ]

  /** 天津市. */
  const Tianjin: seq<City> := [
    City("天津", "101030100", "120000", "天津市")
  ]

  /** 河北省. */
  const Hebei: seq<City> := [
    City("石家庄", "101090101", "130100", "河北省"),
    City("唐山", "101090201", "130200", "河北省"),
    City("秦皇岛", "101091101", "130300", "河北省"),
    City("邯郸", "101090401", "130400", "河北省"),
    City("邢台", "101090501", "130500", "河北省"),
    City("保定", "101090201", "130600", "河北省"),
    City("张家口", "101090301", "130700", "河北省"),
    City("承德", "101090402", "130800", "河北省"),
    City("沧州", "101090701", "130900", "河北省"),
    City("廊坊", "101090601", "131000", "河北省"),
    City("衡水", "101090801", "131100", "河北省")
  ]

  /** 山西省. */
  const Shanxi: seq<City> := [
    City("太原", "101100101", "140100", "山西省"),
    City("大同", "101100201", "140200", "山西省"),
    City("阳泉", "101100301", "140300", "山西省"),
    City("长治", "101100401", "140400", "山西省"),
    City("晋城", "101100501", "140500", "山西省"),
    City("朔州", "101100601", "140600", "山西省"),
    City("晋中", "101100701", "140700", "山西省"),
    City("运城", "101100801", "140800", "山西省"),
    City("忻州", "101100901", "140900", "山西省"),
    City("临汾", "101101001", "141000", "山西省"),
    City("吕梁", "101101101", "141100", "山西省")
  ]

  /** 内蒙古自治区. */
  const InnerMongolia: seq<City> := [
    City("呼和浩特", "101080101", "150100", "内蒙古自治区"),
    City("包头", "101080201", "150200", "内蒙古自治区"),
    City("乌海", "101080301", "150300", "内蒙古自治区"),
    City("赤峰", "101080401", "150400", "内蒙古自治区"),
    City("通辽", "101080501", "150500", "内蒙古自治区"),
    City("鄂尔多斯", "101080601", "150600", "内蒙古自治区"),
    City("呼伦贝尔", "101080701", "150700", "内蒙古自治区"),
    City("巴彦淖尔", "101080801", "150800", "内蒙古自治区"),
    City("乌兰察布", "101080901", "150900", "内蒙古自治区")
  ]

  /** 辽宁省. */
  const Liaoning: seq<City> := [
    City("沈阳", "101070101", "210100", "辽宁省"),
    City("大连", "101070201", "210200", "辽宁省"),
    City("鞍山", "101070301", "210300", "辽宁省"),
    City("抚顺", "101070401", "210400", "辽宁省"),
    City("本溪", "101070501", "210500", "辽宁省"),
    City("丹东", "101070601", "210600", "辽宁省"),
    City("锦州", "101070701", "210700", "辽宁省"),
    City("营口", "101070801", "210800", "辽宁省"),
    City("阜新", "101070901", "210900", "辽宁省"),
    City("辽阳", "101071001", "211000", "辽宁省"),
    City("盘锦", "101071101", "211100", "辽宁省"),
    City("铁岭", "101071201", "211200", "辽宁省"),
    City("朝阳", "101071301", "211300", "辽宁省"),
    City("葫芦岛", "101071401", "211400", "辽宁省")
  ]

  /** 吉林省. */
  const Jilin: seq<City> := [
    City("长春", "101060101", "220100", "吉林省"),
    City("吉林", "101060201", "220200", "吉林省"),
    City("四平", "101060301", "220300", "吉林省"),
    City("辽源", "101060401", "220400", "吉林省"),
    City("通化", "101060501", "220500", "吉林省"),
    City("白山", "101060601", "220600", "吉林省"),
    City("松原", "101060701", "220700", "吉林省"),
    City("白城", "101060801", "220800", "吉林省")
  ]

  /** 黑龙江省. */
  const Heilongjiang: seq<City> := [
    City("哈尔滨", "101050101", "230100", "黑龙江省"),
    City("齐齐哈尔", "101050201", "230200", "黑龙江省"),
    City("鸡西", "101050301", "230300", "黑龙江省"),
    City("鹤岗", "101050401", "230400", "黑龙江省"),
    City("双鸭山", "101050501", "230500", "黑龙江省"),
    City("大庆", "101050601", "230600", "黑龙江省"),
    City("伊春", "101050701", "230700", "黑龙江省"),
    City("佳木斯", "101050801", "230800", "黑龙江省"),
    City("七台河", "101050901", "230900", "黑龙江省"),
    City("牡丹江", "101051001", "231000", "黑龙江省"),
    City("黑河", "101051101", "231100", "黑龙江省"),
    City("绥化", "101051201", "231200", "黑龙江省")
  ]

  /** 上海市. */
  const Shanghai: seq<City> := [
    City("上海", "101020100", "310000", "上海市")
  ]

  /** 江苏省. */
  const Jiangsu: seq<City> := [
    City("南京", "101190101", "320100", "江苏省"),
    City("无锡", "101190201", "320200", "江苏省"),
    City("徐州", "101190301", "320300", "江苏省"),
    City("常州", "101191101", "320400", "江苏省"),
    City("苏州", "101190401", "320500", "江苏省"),
    City("南通", "101190501", "320600", "江苏省"),
    City("连云港", "101191001", "320700", "江苏省"),
    City("淮安", "101190701", "320800", "江苏省"),
    City("盐城", "101190801", "320900", "江苏省"),
    City("扬州", "101190601", "321000", "江苏省"),
    City("镇江", "101190901", "321100", "江苏省"),
    City("泰州", "101191201", "321200", "江苏省"),
    City("宿迁", "101191301", "321300", "江苏省")
  ]

  /** 浙江省. */
  const Zhejiang: seq<City> := [
    City("杭州", "101210101", "330100", "浙江省"),
    City("宁波", "101210401", "330200", "浙江省"),
    City("温州", "101210601", "330300", "浙江省"),
    City("嘉兴", "101210201", "330400", "浙江省"),
    City("湖州", "101210301", "330500", "浙江省"),
    City("绍兴", "101210501", "330600", "浙江省"),
    City("金华", "101210901", "330700", "浙江省"),
    City("衢州", "101210801", "330800", "浙江省"),
    City("舟山", "101211101", "330900", "浙江省"),
    City("台州", "101210701", "331000", "浙江省"),
    City("丽水", "101211001", "331100", "浙江省")
  ]

  /** 安徽省. */
  const Anhui: seq<City> := [
    City("合肥", "101220101", "340100", "安徽省"),
    City("芜湖", "101220301", "340200", "安徽省"),
    City("蚌埠", "101220201", "340300", "安徽省"),
    City("淮南", "101220401", "340400", "安徽省"),
    City("马鞍山", "101220501", "340500", "安徽省"),
    City("淮北", "101220601", "340600", "安徽省"),
    City("铜陵", "101220701", "340700", "安徽省"),
    City("安庆", "101220801", "340800", "安徽省"),
    City("黄山", "101221001", "341000", "安徽省"),
    City("滁州", "101221101", "341100", "安徽省"),
    City("阜阳", "101220901", "341200", "安徽省"),
    City("宿州", "101221201", "341300", "安徽省"),
    City("六安", "101221301", "341500", "安徽省"),
    City("亳州", "101221401", "341600", "安徽省"),
    City("池州", "101221501", "341700", "安徽省"),
    City("宣城", "101221601", "341800", "安徽省")
  ]

  /** 福建省. */
  const Fujian: seq<City> := [
    City("福州", "101230101", "350100", "福建省"),
    City("厦门", "101230201", "350200", "福建省"),
    City("莆田", "101230401", "350300", "福建省"),
    City("三明", "101230501", "350400", "福建省"),
    City("泉州", "101230601", "350500", "福建省"),
    City("漳州", "101230701", "350600", "福建省"),
    City("南平", "101230801", "350700", "福建省"),
    City("龙岩", "101230901", "350800", "福建省"),
    City("宁德", "101230301", "350900", "福建省")
  ]

  /** 江西省. */
  const Jiangxi: seq<City> := [
    City("南昌", "101240101", "360100", "江西省"),
    City("景德镇", "101240301", "360200", "江西省"),
    City("萍乡", "101240401", "360300", "江西省"),
    City("九江", "101240201", "360400", "江西省"),
    City("新余", "101240501", "360500", "江西省"),
    City("鹰潭", "101240601", "360600", "江西省"),
    City("赣州", "101240701", "360700", "江西省"),
    City("吉安", "101240901", "360800", "江西省"),
    City("宜春", "101240801", "360900", "江西省"),
    City("抚州", "101241001", "361000", "江西省"),
    City("上饶", "101241101", "361100", "江西省")
  ]

  /** 山东省. */
  const Shandong: seq<City> := [
    City("济南", "101120101", "370100", "山东省"),
    City("青岛", "101120201", "370200", "山东省"),
    City("淄博", "101120301", "370300", "山东省"),
    City("枣庄", "101120401", "370400", "山东省"),
    City("东营", "101120501", "370500", "山东省"),
    City("烟台", "101120601", "370600", "山东省"),
    City("潍坊", "101120701", "370700", "山东省"),
    City("济宁", "101120801", "370800", "山东省"),
    City("泰安", "101120901", "370900", "山东省"),
    City("威海", "101121001", "371000", "山东省"),
    City("日照", "101121101", "371100", "山东省"),
    City("临沂", "101121301", "371300", "山东省"),
    City("德州", "101121401", "371400", "山东省"),
    City("聊城", "101121501", "371500", "山东省"),
    City("滨州", "101121601", "371600", "山东省"),
    City("菏泽", "101121701", "371700", "山东省")
  ]

  /** 河南省. */
  const Henan: seq<City> := [
    City("郑州", "101180101", "410100", "河南省"),
    City("开封", "101180201", "410200", "河南省"),
    City("洛阳", "101180301", "410300", "河南省"),
    City("平顶山", "101180401", "410400", "河南省"),
    City("安阳", "101180501", "410500", "河南省"),
    City("鹤壁", "101180601", "410600", "河南省"),
    City("新乡", "101180701", "410700", "河南省"),
    City("焦作", "101180801", "410800", "河南省"),
    City("濮阳", "101180901", "410900", "河南省"),
    City("许昌", "101181001", "411000", "河南省"),
    City("漯河", "101181101", "411100", "河南省"),
    City("三门峡", "101181201", "411200", "河南省"),
    City("南阳", "101181301", "411300", "河南省"),
    City("商丘", "101181401", "411400", "河南省"),
    City("信阳", "101181501", "411500", "河南省"),
    City("周口", "101181601", "411600", "河南省"),
    City("驻马店", "101181701", "411700", "河南省")
  ]

  /** 湖北省. */
  const Hubei: seq<City> := [
    City("武汉", "101200101", "420100", "湖北省"),
    City("黄石", "101200201", "420200", "湖北省"),
    City("十堰", "101200301", "420300", "湖北省"),
    City("宜昌", "101200401", "420500", "湖北省"),
    City("襄阳", "101200501", "420600", "湖北省"),
    City("鄂州", "101200601", "420700", "湖北省"),
    City("荆门", "101200701", "420800", "湖北省"),
    City("孝感", "101200801", "420900", "湖北省"),
    City("荆州", "101200901", "421000", "湖北省"),
    City("黄冈", "101201001", "421100", "湖北省"),
    City("咸宁", "101201101", "421200", "湖北省"),
    City("随州", "101201201", "421300", "湖北省")
  ]

  /** 湖南省. */
  const Hunan: seq<City> := [
    City("长沙", "101250101", "430100", "湖南省"),
    City("株洲", "101250201", "430200", "湖南省"),
    City("湘潭", "101250301", "430300", "湖南省"),
    City("衡阳", "101250401", "430400", "湖南省"),
    City("邵阳", "101250501", "430500", "湖南省"),
    City("岳阳", "101250601", "430600", "湖南省"),
    City("常德", "101250701", "430700", "湖南省"),
    City("张家界", "101250801", "430800", "湖南省"),
    City("益阳", "101250901", "430900", "湖南省"),
    City("郴州", "101251001", "431000", "湖南省"),
    City("永州", "101251101", "431100", "湖南省"),
    City("怀化", "101251201", "431200", "湖南省"),
    City("娄底", "101251301", "431300", "湖南省")
  ]

  /** 广东省. */
  const Guangdong: seq<City> := [
    City("广州", "101280101", "440100", "广东省"),
    City("韶关", "101280201", "440200", "广东省"),
    City("深圳", "101280601", "440300", "广东省"),
    City("珠海", "101280701", "440400", "广东省"),
    City("汕头", "101280501", "440500", "广东省"),
    City("佛山", "101280800", "440600", "广东省"),
    City("江门", "101281001", "440700", "广东省"),
    City("湛江", "101281401", "440800", "广东省"),
    City("茂名", "101281601", "440900", "广东省"),
    City("肇庆", "101280901", "441200", "广东省"),
    City("惠州", "101280301", "441300", "广东省"),
    City("梅州", "101280401", "441400", "广东省"),
    City("汕尾", "101281101", "441500", "广东省"),
    City("河源", "101281201", "441600", "广东省"),
    City("阳江", "101281701", "441700", "广东省"),
    City("清远", "101281301", "441800", "广东省"),
    City("东莞", "101281901", "441900", "广东省"),
    City("中山", "101281501", "442000", "广东省"),
    City("潮州", "101281801", "445100", "广东省"),
    City("揭阳", "101282001", "445200", "广东省"),
    City("云浮", "101282101", "445300", "广东省")
  ]

  /** 广西壮族自治区. */
  const Guangxi: seq<City> := [
    City("南宁", "101300101", "450100", "广西壮族自治区"),
    City("柳州", "101300201", "450200", "广西壮族自治区"),
    City("桂林", "101300501", "450300", "广西壮族自治区"),
    City("梧州", "101300401", "450400", "广西壮族自治区"),
    City("北海", "101300701", "450500", "广西壮族自治区"),
    City("防城港", "101301001", "450600", "广西壮族自治区"),
    City("钦州", "101300901", "450700", "广西壮族自治区"),
    City("贵港", "101300801", "450800", "广西壮族自治区"),
    City("玉林", "101300601", "450900", "广西壮族自治区"),
    City("百色", "101300301", "451000", "广西壮族自治区"),
    City("贺州", "101301101", "451100", "广西壮族自治区"),
    City("河池", "101301201", "451200", "广西壮族自治区"),
    City("来宾", "101301301", "451300", "广西壮族自治区"),
    City("崇左", "101301401", "451400", "广西壮族自治区")
  ]

  /** 海南省. */
  const Hainan: seq<City> := [
    City("海口", "101310101", "460100", "海南省"),
    City("三亚", "101310201", "460200", "海南省"),
    City("三沙", "101310301", "460300", "海南省"),
    City("儋州", "101310401", "460400", "海南省")
  ]

  /** 重庆市. */
  const Chongqing: seq<City> := [
    City("重庆", "101040100", "500000", "重庆市")
  ]

  /** 四川省. */
  const Sichuan: seq<City> := [
    City("成都", "101270101", "510100", "四川省"),
    City("自贡", "101270301", "510300", "四川省"),
    City("攀枝花", "101270401", "510400", "四川省"),
    City("泸州", "101270501", "510500", "四川省"),
    City("德阳", "101270601", "510600", "四川省"),
    City("绵阳", "101270701", "510700", "四川省"),
    City("广元", "101270801", "510800", "四川省"),
    City("遂宁", "101270901", "510900", "四川省"),
    City("内江", "101271001", "511000", "四川省"),
    City("乐山", "101271101", "511100", "四川省"),
    City("南充", "101271201", "511300", "四川省"),
    City("眉山", "101271301", "511400", "四川省"),
    City("宜宾", "101271401", "511500", "四川省"),
    City("广安", "101271501", "511600", "四川省"),
    City("达州", "101271601", "511700", "四川省"),
    City("雅安", "101271701", "511800", "四川省"),
    City("巴中", "101271801", "511900", "四川省"),
    City("资阳", "101271901", "512000", "四川省")
  ]

  /** 贵州省. */
  const Guizhou: seq<City> := [
    City("贵阳", "101260101", "520100", "贵州省"),
    City("六盘水", "101260201", "520200", "贵州省"),
    City("遵义", "101260301", "520300", "贵州省"),
    City("安顺", "101260401", "520400", "贵州省"),
    City("毕节", "101260501", "520500", "贵州省"),
    City("铜仁", "101260601", "520600", "贵州省")
  ]

  /** 云南省. */
  const Yunnan: seq<City> := [
    City("昆明", "101290101", "530100", "云南省"),
    City("曲靖", "101290301", "530300", "云南省"),
    City("玉溪", "101290401", "530400", "云南省"),
    City("保山", "101290501", "530500", "云南省"),
    City("昭通", "101290601", "530600", "云南省"),
    City("丽江", "101290701", "530700", "云南省"),
    City("普洱", "101290801", "530800", "云南省"),
    City("临沧", "101290901", "530900", "云南省")
  ]

  /** 西藏自治区. */
  const Tibet: seq<City> := [
    City("拉萨", "101140101", "540100", "西藏自治区"),
    City("日喀则", "101140201", "540200", "西藏自治区"),
    City("昌都", "101140301", "540300", "西藏自治区"),
    City("林芝", "101140401", "540400", "西藏自治区"),
    City("山南", "101140501", "540500", "西藏自治区"),
    City("那曲", "101140601", "540600", "西藏自治区")
  ]

  /** 陕西省. */
  const Shaanxi: seq<City> := [
    City("西安", "101110101", "610100", "陕西省"),
    City("铜川", "101110201", "610200", "陕西省"),
    City("宝鸡", "101110301", "610300", "陕西省"),
    City("咸阳", "101110401", "610400", "陕西省"),
    City("渭南", "101110501", "610500", "陕西省"),
    City("延安", "101110601", "610600", "陕西省"),
    City("汉中", "101110701", "610700", "陕西省"),
    City("榆林", "101110801", "610800", "陕西省"),
    City("安康", "101110901", "610900", "陕西省"),
    City("商洛", "101111001", "611000", "陕西省")
  ]

  /** 甘肃省. */
  const Gansu: seq<City> := [
    City("兰州", "101160101", "620100", "甘肃省"),
    City("嘉峪关", "101161401", "620200", "甘肃省"),
    City("金昌", "101160201", "620300", "甘肃省"),
    City("白银", "101160301", "620400", "甘肃省"),
    City("天水", "101160401", "620500", "甘肃省"),
    City("武威", "101160501", "620600", "甘肃省"),
    City("张掖", "101160601", "620700", "甘肃省"),
    City("平凉", "101160701", "620800", "甘肃省"),
    City("酒泉", "101160801", "620900", "甘肃省"),
    City("庆阳", "101160901", "621000", "甘肃省"),
    City("定西", "101161001", "621100", "甘肃省"),
    City("陇南", "101161101", "621200", "甘肃省")
  ]

  /** 青海省. */
  const Qinghai: seq<City> := [
    City("西宁", "101150101", "630100", "青海省"),
    City("海东", "101150201", "630200", "青海省")
  ]

  /** 宁夏回族自治区. */
  const Ningxia: seq<City> := [
    City("银川", "101170101", "640100", "宁夏回族自治区"),
    City("石嘴山", "101170201", "640200", "宁夏回族自治区"),
    City("吴忠", "101170301", "640300", "宁夏回族自治区"),
    City("固原", "101170401", "640400", "宁夏回族自治区"),
    City("中卫", "101170501", "640500", "宁夏回族自治区")
  ]

  /** 新疆维吾尔自治区. */
  const Xinjiang: seq<City> := [
    City("乌鲁木齐", "101130101", "650100", "新疆维吾尔自治区"),
    City("克拉玛依", "101130201", "650200", "新疆维吾尔自治区"),
    City("吐鲁番", "101130301", "650400", "新疆维吾尔自治区"),
    City("哈密", "101130401", "650500", "新疆维吾尔自治区")
  ]

  /** 香港特别行政区. */
  const HongKong: seq<City> := [
    City("香港", "101320101", "810000", "香港特别行政区")
  ]

  /** 澳门特别行政区. */
  const Macau: seq<City> := [
    City("澳门", "101330101", "820000", "澳门特别行政区")
  ]

  /** 台湾省. */
  const Taiwan: seq<City> := [
    City("台北", "101340101", "710100", "台湾省")
  ]

  /** `CHINA_CITIES`. */
  const ChinaTable: Table := [
    ("北京市", Beijing),
    ("天津市", Tianjin),
    ("河北省", Hebei),
    ("山西省", Shanxi),
    ("内蒙古自治区", InnerMongolia),
    ("辽宁省", Liaoning),
    ("吉林省", Jilin),
    ("黑龙江省", Heilongjiang),
    ("上海市", Shanghai),
    ("江苏省", Jiangsu),
    ("浙江省", Zhejiang),
    ("安徽省", Anhui),
    ("福建省", Fujian),
    ("江西省", Jiangxi),
    ("山东省", Shandong),
    ("河南省", Henan),
    ("湖北省", Hubei),
    ("湖南省", Hunan),
    ("广东省", Guangdong),
    ("广西壮族自治区", Guangxi),
    ("海南省", Hainan),
    ("重庆市", Chongqing),
    ("四川省", Sichuan),
    ("贵州省", Guizhou),
    ("云南省", Yunnan),
    ("西藏自治区", Tibet),
    ("陕西省", Shaanxi),
    ("甘肃省", Gansu),
    ("青海省", Qinghai),
    ("宁夏回族自治区", Ningxia),
    ("新疆维吾尔自治区", Xinjiang),
    ("香港特别行政区", HongKong),
    ("澳门特别行政区", Macau),
    ("台湾省", Taiwan)
  ]

  /** Every city in the table names the province it is filed under. */
  // Row by row: the constant in place k of the table, and the filing of its
  // cities, proved separately so that no proof unfolds the whole table.

  lemma BeijingRow()
    ensures ChinaTable[0].0 == "北京市" && ChinaTable[0].1 == Beijing
  {
  }

  lemma BeijingFiled()
    ensures Filed(ChinaTable[0].0, ChinaTable[0].1)
  {
    BeijingRow();
    BeijingCitiesFiled();
  }

  lemma BeijingCitiesFiled()
    ensures Filed("北京市", Beijing)
  {
    FiledByIndex("北京市", Beijing);
  }

  lemma TianjinRow()
    ensures ChinaTable[1].0 == "天津市" && ChinaTable[1].1 == Tianjin
  {
  }

  lemma TianjinFiled()
    ensures Filed(ChinaTable[1].0, ChinaTable[1].1)
  {
    TianjinRow();
    TianjinCitiesFiled();
  }

  lemma TianjinCitiesFiled()
    ensures Filed("天津市", Tianjin)
  {
    FiledByIndex("天津市", Tianjin);
  }

  lemma HebeiRow()
    ensures ChinaTable[2].0 == "河北省" && ChinaTable[2].1 == Hebei
  {
  }

  lemma HebeiFiled()
    ensures Filed(ChinaTable[2].0, ChinaTable[2].1)
  {
    HebeiRow();
    HebeiCitiesFiled();
  }

  lemma HebeiCitiesFiled()
    ensures Filed("河北省", Hebei)
  {
    FiledByIndex("河北省", Hebei);
  }

  lemma ShanxiRow()
    ensures ChinaTable[3].0 == "山西省" && ChinaTable[3].1 == Shanxi
  {
  }

  lemma ShanxiFiled()
    ensures Filed(ChinaTable[3].0, ChinaTable[3].1)
  {
    ShanxiRow();
    ShanxiCitiesFiled();
  }

  lemma ShanxiCitiesFiled()
    ensures Filed("山西省", Shanxi)
  {
    FiledByIndex("山西省", Shanxi);
  }

  lemma InnerMongoliaRow()
    ensures ChinaTable[4].0 == "内蒙古自治区" && ChinaTable[4].1 == InnerMongolia
  {
  }

  lemma InnerMongoliaFiled()
    ensures Filed(ChinaTable[4].0, ChinaTable[4].1)
  {
    InnerMongoliaRow();
    InnerMongoliaCitiesFiled();
  }

  lemma InnerMongoliaCitiesFiled()
    ensures Filed("内蒙古自治区", InnerMongolia)
  {
    FiledByIndex("内蒙古自治区", InnerMongolia);
  }

  lemma LiaoningRow()
    ensures ChinaTable[5].0 == "辽宁省" && ChinaTable[5].1 == Liaoning
  {
  }

  lemma LiaoningFiled()
    ensures Filed(ChinaTable[5].0, ChinaTable[5].1)
  {
    LiaoningRow();
    LiaoningCitiesFiled();
  }

  lemma LiaoningCitiesFiled()
    ensures Filed("辽宁省", Liaoning)
  {
    FiledByIndex("辽宁省", Liaoning);
  }

  lemma JilinRow()
    ensures ChinaTable[6].0 == "吉林省" && ChinaTable[6].1 == Jilin
  {
  }

  lemma JilinFiled()
    ensures Filed(ChinaTable[6].0, ChinaTable[6].1)
  {
    JilinRow();
    JilinCitiesFiled();
  }

  lemma JilinCitiesFiled()
    ensures Filed("吉林省", Jilin)
  {
    FiledByIndex("吉林省", Jilin);
  }

  lemma HeilongjiangRow()
    ensures ChinaTable[7].0 == "黑龙江省" && ChinaTable[7].1 == Heilongjiang
  {
  }

  lemma HeilongjiangFiled()
    ensures Filed(ChinaTable[7].0, ChinaTable[7].1)
  {
    HeilongjiangRow();
    HeilongjiangCitiesFiled();
  }

  lemma HeilongjiangCitiesFiled()
    ensures Filed("黑龙江省", Heilongjiang)
  {
    FiledByIndex("黑龙江省", Heilongjiang);
  }

  lemma ShanghaiRow()
    ensures ChinaTable[8].0 == "上海市" && ChinaTable[8].1 == Shanghai
  {
  }

  lemma ShanghaiFiled()
    ensures Filed(ChinaTable[8].0, ChinaTable[8].1)
  {
    ShanghaiRow();
    ShanghaiCitiesFiled();
  }

  lemma ShanghaiCitiesFiled()
    ensures Filed("上海市", Shanghai)
  {
    FiledByIndex("上海市", Shanghai);
  }

  lemma JiangsuRow()
    ensures ChinaTable[9].0 == "江苏省" && ChinaTable[9].1 == Jiangsu
  {
  }

  lemma JiangsuFiled()
    ensures Filed(ChinaTable[9].0, ChinaTable[9].1)
  {
    JiangsuRow();
    JiangsuCitiesFiled();
  }

  lemma JiangsuCitiesFiled()
    ensures Filed("江苏省", Jiangsu)
  {
    FiledByIndex("江苏省", Jiangsu);
  }

  lemma ZhejiangRow()
    ensures ChinaTable[10].0 == "浙江省" && ChinaTable[10].1 == Zhejiang
  {
  }

  lemma ZhejiangFiled()
    ensures Filed(ChinaTable[10].0, ChinaTable[10].1)
  {
    ZhejiangRow();
    ZhejiangCitiesFiled();
  }

  lemma ZhejiangCitiesFiled()
    ensures Filed("浙江省", Zhejiang)
  {
    FiledByIndex("浙江省", Zhejiang);
  }

  lemma AnhuiRow()
    ensures ChinaTable[11].0 == "安徽省" && ChinaTable[11].1 == Anhui
  {
  }

  lemma AnhuiFiled()
    ensures Filed(ChinaTable[11].0, ChinaTable[11].1)
  {
    AnhuiRow();
    AnhuiCitiesFiled();
  }

  lemma AnhuiCitiesFiled()
    ensures Filed("安徽省", Anhui)
  {
    FiledByIndex("安徽省", Anhui);
  }

  lemma FujianRow()
    ensures ChinaTable[12].0 == "福建省" && ChinaTable[12].1 == Fujian
  {
  }

  lemma FujianFiled()
    ensures Filed(ChinaTable[12].0, ChinaTable[12].1)
  {
    FujianRow();
    FujianCitiesFiled();
  }

  lemma FujianCitiesFiled()
    ensures Filed("福建省", Fujian)
  {
    FiledByIndex("福建省", Fujian);
  }

  lemma JiangxiRow()
    ensures ChinaTable[13].0 == "江西省" && ChinaTable[13].1 == Jiangxi
  {
  }

  lemma JiangxiFiled()
    ensures Filed(ChinaTable[13].0, ChinaTable[13].1)
  {
    JiangxiRow();
    JiangxiCitiesFiled();
  }

  lemma JiangxiCitiesFiled()
    ensures Filed("江西省", Jiangxi)
  {
    FiledByIndex("江西省", Jiangxi);
  }

  lemma ShandongRow()
    ensures ChinaTable[14].0 == "山东省" && ChinaTable[14].1 == Shandong
  {
  }

  lemma ShandongFiled()
    ensures Filed(ChinaTable[14].0, ChinaTable[14].1)
  {
    ShandongRow();
    ShandongCitiesFiled();
  }

  lemma ShandongCitiesFiled()
    ensures Filed("山东省", Shandong)
  {
    FiledByIndex("山东省", Shandong);
  }

  lemma HenanRow()
    ensures ChinaTable[15].0 == "河南省" && ChinaTable[15].1 == Henan
  {
  }

  lemma HenanFiled()
    ensures Filed(ChinaTable[15].0, ChinaTable[15].1)
  {
    HenanRow();
    HenanCitiesFiled();
  }

  lemma HenanCitiesFiled()
    ensures Filed("河南省", Henan)
  {
    FiledByIndex("河南省", Henan);
  }

  lemma HubeiRow()
    ensures ChinaTable[16].0 == "湖北省" && ChinaTable[16].1 == Hubei
  {
  }

  lemma HubeiFiled()
    ensures Filed(ChinaTable[16].0, ChinaTable[16].1)
  {
    HubeiRow();
    HubeiCitiesFiled();
  }

  lemma HubeiCitiesFiled()
    ensures Filed("湖北省", Hubei)
  {
    FiledByIndex("湖北省", Hubei);
  }

  lemma HunanRow()
    ensures ChinaTable[17].0 == "湖南省" && ChinaTable[17].1 == Hunan
  {
  }

  lemma HunanFiled()
    ensures Filed(ChinaTable[17].0, ChinaTable[17].1)
  {
    HunanRow();
    HunanCitiesFiled();
  }

  lemma HunanCitiesFiled()
    ensures Filed("湖南省", Hunan)
  {
    FiledByIndex("湖南省", Hunan);
  }

  lemma GuangdongRow()
    ensures ChinaTable[18].0 == "广东省" && ChinaTable[18].1 == Guangdong
  {
  }

  lemma GuangdongFiled()
    ensures Filed(ChinaTable[18].0, ChinaTable[18].1)
  {
    GuangdongRow();
    GuangdongCitiesFiled();
  }

  lemma GuangdongCitiesFiled()
    ensures Filed("广东省", Guangdong)
  {
    FiledByIndex("广东省", Guangdong);
  }

  lemma GuangxiRow()
    ensures ChinaTable[19].0 == "广西壮族自治区" && ChinaTable[19].1 == Guangxi
  {
  }

  lemma GuangxiFiled()
    ensures Filed(ChinaTable[19].0, ChinaTable[19].1)
  {
    GuangxiRow();
    GuangxiCitiesFiled();
  }

  lemma GuangxiCitiesFiled()
    ensures Filed("广西壮族自治区", Guangxi)
  {
    FiledByIndex("广西壮族自治区", Guangxi);
  }

  lemma HainanRow()
    ensures ChinaTable[20].0 == "海南省" && ChinaTable[20].1 == Hainan
  {
  }

  lemma HainanFiled()
    ensures Filed(ChinaTable[20].0, ChinaTable[20].1)
  {
    HainanRow();
    HainanCitiesFiled();
  }

  lemma HainanCitiesFiled()
    ensures Filed("海南省", Hainan)
  {
    FiledByIndex("海南省", Hainan);
  }

  lemma ChongqingRow()
    ensures ChinaTable[21].0 == "重庆市" && ChinaTable[21].1 == Chongqing
  {
  }

  lemma ChongqingFiled()
    ensures Filed(ChinaTable[21].0, ChinaTable[21].1)
  {
    ChongqingRow();
    ChongqingCitiesFiled();
  }

  lemma ChongqingCitiesFiled()
    ensures Filed("重庆市", Chongqing)
  {
    FiledByIndex("重庆市", Chongqing);
  }

  lemma SichuanRow()
    ensures ChinaTable[22].0 == "四川省" && ChinaTable[22].1 == Sichuan
  {
  }

  lemma SichuanFiled()
    ensures Filed(ChinaTable[22].0, ChinaTable[22].1)
  {
    SichuanRow();
    SichuanCitiesFiled();
  }

  lemma SichuanCitiesFiled()
    ensures Filed("四川省", Sichuan)
  {
    FiledByIndex("四川省", Sichuan);
  }

  lemma GuizhouRow()
    ensures ChinaTable[23].0 == "贵州省" && ChinaTable[23].1 == Guizhou
  {
  }

  lemma GuizhouFiled()
    ensures Filed(ChinaTable[23].0, ChinaTable[23].1)
  {
    GuizhouRow();
    GuizhouCitiesFiled();
  }

  lemma GuizhouCitiesFiled()
    ensures Filed("贵州省", Guizhou)
  {
    FiledByIndex("贵州省", Guizhou);
  }

  lemma YunnanRow()
    ensures ChinaTable[24].0 == "云南省" && ChinaTable[24].1 == Yunnan
  {
  }

  lemma YunnanFiled()
    ensures Filed(ChinaTable[24].0, ChinaTable[24].1)
  {
    YunnanRow();
    YunnanCitiesFiled();
  }

  lemma YunnanCitiesFiled()
    ensures Filed("云南省", Yunnan)
  {
    FiledByIndex("云南省", Yunnan);
  }

  lemma TibetRow()
    ensures ChinaTable[25].0 == "西藏自治区" && ChinaTable[25].1 == Tibet
  {
  }

  lemma TibetFiled()
    ensures Filed(ChinaTable[25].0, ChinaTable[25].1)
  {
    TibetRow();
    TibetCitiesFiled();
  }

  lemma TibetCitiesFiled()
    ensures Filed("西藏自治区", Tibet)
  {
    FiledByIndex("西藏自治区", Tibet);
  }

  lemma ShaanxiRow()
    ensures ChinaTable[26].0 == "陕西省" && ChinaTable[26].1 == Shaanxi
  {
  }

  lemma ShaanxiFiled()
    ensures Filed(ChinaTable[26].0, ChinaTable[26].1)
  {
    ShaanxiRow();
    ShaanxiCitiesFiled();
  }

  lemma ShaanxiCitiesFiled()
    ensures Filed("陕西省", Shaanxi)
  {
    FiledByIndex("陕西省", Shaanxi);
  }

  lemma GansuRow()
    ensures ChinaTable[27].0 == "甘肃省" && ChinaTable[27].1 == Gansu
  {
  }

  lemma GansuFiled()
    ensures Filed(ChinaTable[27].0, ChinaTable[27].1)
  {
    GansuRow();
    GansuCitiesFiled();
  }

  lemma GansuCitiesFiled()
    ensures Filed("甘肃省", Gansu)
  {
    FiledByIndex("甘肃省", Gansu);
  }

  lemma QinghaiRow()
    ensures ChinaTable[28].0 == "青海省" && ChinaTable[28].1 == Qinghai
  {
  }

  lemma QinghaiFiled()
    ensures Filed(ChinaTable[28].0, ChinaTable[28].1)
  {
    QinghaiRow();
    QinghaiCitiesFiled();
  }

  lemma QinghaiCitiesFiled()
    ensures Filed("青海省", Qinghai)
  {
    FiledByIndex("青海省", Qinghai);
  }

  lemma NingxiaRow()
    ensures ChinaTable[29].0 == "宁夏回族自治区" && ChinaTable[29].1 == Ningxia
  {
  }

  lemma NingxiaFiled()
    ensures Filed(ChinaTable[29].0, ChinaTable[29].1)
  {
    NingxiaRow();
    NingxiaCitiesFiled();
  }

  lemma NingxiaCitiesFiled()
    ensures Filed("宁夏回族自治区", Ningxia)
  {
    FiledByIndex("宁夏回族自治区", Ningxia);
  }

  lemma XinjiangRow()
    ensures ChinaTable[30].0 == "新疆维吾尔自治区" && ChinaTable[30].1 == Xinjiang
  {
  }

  lemma XinjiangFiled()
    ensures Filed(ChinaTable[30].0, ChinaTable[30].1)
  {
    XinjiangRow();
    XinjiangCitiesFiled();
  }

  lemma XinjiangCitiesFiled()
    ensures Filed("新疆维吾尔自治区", Xinjiang)
  {
    FiledByIndex("新疆维吾尔自治区", Xinjiang);
  }

  lemma HongKongRow()
    ensures ChinaTable[31].0 == "香港特别行政区" && ChinaTable[31].1 == HongKong
  {
  }

  lemma HongKongFiled()
    ensures Filed(ChinaTable[31].0, ChinaTable[31].1)
  {
    HongKongRow();
    HongKongCitiesFiled();
  }

  lemma HongKongCitiesFiled()
    ensures Filed("香港特别行政区", HongKong)
  {
    FiledByIndex("香港特别行政区", HongKong);
  }

  lemma MacauRow()
    ensures ChinaTable[32].0 == "澳门特别行政区" && ChinaTable[32].1 == Macau
  {
  }

  lemma MacauFiled()
    ensures Filed(ChinaTable[32].0, ChinaTable[32].1)
  {
    MacauRow();
    MacauCitiesFiled();
  }

  lemma MacauCitiesFiled()
    ensures Filed("澳门特别行政区", Macau)
  {
    FiledByIndex("澳门特别行政区", Macau);
  }

  lemma TaiwanRow()
    ensures ChinaTable[33].0 == "台湾省" && ChinaTable[33].1 == Taiwan
  {
  }

  lemma TaiwanFiled()
    ensures Filed(ChinaTable[33].0, ChinaTable[33].1)
  {
    TaiwanRow();
    TaiwanCitiesFiled();
  }

  lemma TaiwanCitiesFiled()
    ensures Filed("台湾省", Taiwan)
  {
    FiledByIndex("台湾省", Taiwan);
  }

  /** Every city in the table names the province it is filed under. */
  lemma TableWellFiled()
    ensures WellFiled(ChinaTable)
  {
    forall i | 0 <= i < |ChinaTable|
      ensures Filed(ChinaTable[i].0, ChinaTable[i].1)
    {
      if i == 0 {
        BeijingFiled();
      } else if i == 1 {
        TianjinFiled();
      } else if i == 2 {
        HebeiFiled();
      } else if i == 3 {
        ShanxiFiled();
      } else if i == 4 {
        InnerMongoliaFiled();
      } else if i == 5 {
        LiaoningFiled();
      } else if i == 6 {
        JilinFiled();
      } else if i == 7 {
        HeilongjiangFiled();
      } else if i == 8 {
        ShanghaiFiled();
      } else if i == 9 {
        JiangsuFiled();
      } else if i == 10 {
        ZhejiangFiled();
      } else if i == 11 {
        AnhuiFiled();
      } else if i == 12 {
        FujianFiled();
      } else if i == 13 {
        JiangxiFiled();
      } else if i == 14 {
        ShandongFiled();
      } else if i == 15 {
        HenanFiled();
      } else if i == 16 {
        HubeiFiled();
      } else if i == 17 {
        HunanFiled();
      } else if i == 18 {
        GuangdongFiled();
      } else if i == 19 {
        GuangxiFiled();
      } else if i == 20 {
        HainanFiled();
      } else if i == 21 {
        ChongqingFiled();
      } else if i == 22 {
        SichuanFiled();
      } else if i == 23 {
        GuizhouFiled();
      } else if i == 24 {
        YunnanFiled();
      } else if i == 25 {
        TibetFiled();
      } else if i == 26 {
        ShaanxiFiled();
      } else if i == 27 {
        GansuFiled();
      } else if i == 28 {
        QinghaiFiled();
      } else if i == 29 {
        NingxiaFiled();
      } else if i == 30 {
        XinjiangFiled();
      } else if i == 31 {
        HongKongFiled();
      } else if i == 32 {
        MacauFiled();
      } else {
        TaiwanFiled();
      }
    }
    WellFiledByRows(ChinaTable);
  }

  lemma BeijingLacksCode(code: string)
    requires code == "101090201"
    ensures Find(Beijing, HasCode(code)).None?
  {
  }

  lemma TianjinLacksCode(code: string)
    requires code == "101090201"
    ensures Find(Tianjin, HasCode(code)).None?
  {
  }

  lemma HebeiFindsTangshan(code: string)
    requires code == "101090201"
    ensures Find(Hebei, HasCode(code)) == Some(Hebei[1])
  {
  }

  lemma FirstRowsLackCode(code: string, f: City -> bool)
    requires code == "101090201" && f == HasCode(code)
    ensures forall j :: 0 <= j < 2 ==> Misses(ChinaTable, f, j)
  {
    BeijingRow();
    TianjinRow();
    BeijingLacksCode(code);
    TianjinLacksCode(code);
  }

  lemma HebeiSharesCode(code: string)
    requires code == "101090201"
    ensures Hebei[1].name == "唐山" && Hebei[5].name == "保定"
    ensures Hebei[1].code == code && Hebei[5].code == code
  {
  }

  lemma TableLength()
    ensures |ChinaTable| == 34
  {
  }

  lemma TangshanByCode(code: string)
    requires code == "101090201"
    ensures CityByCode(ChinaTable, code) == Some(Hebei[1])
  {
    var f := HasCode(code);
    assert Find(ChinaTable[2].1, f) == Some(Hebei[1]) by {
      HebeiRow();
      HebeiFindsTangshan(code);
    }
    TableLength();
    FirstRowsLackCode(code, f);
    FindInTableAt(ChinaTable, f, 2);
  }

  /** 唐山 and 保定 carry the same weather code; the lookup
      by code returns 唐山, the first in table order, so 保定 is never found by
      its code. */
  lemma SharedCodeFindsTangshan(code: string)
    requires code == "101090201"
    ensures Hebei[1].name == "唐山" && Hebei[5].name == "保定"
    ensures Hebei[1].code == code && Hebei[5].code == code
    ensures CityByCode(ChinaTable, code) == Some(Hebei[1])
  {
    HebeiSharesCode(code);
    TangshanByCode(code);
  }
}
