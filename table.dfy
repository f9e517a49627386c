/** The table `apparent_expectation_values` (felo_rating.py:223-422) that
    corrects the expectation of a single relay bout for the winning-hit
    bias, and the interpolation over it (felo_rating.py:476-489).

    Row p holds the apparent result of a bout whose ideal expectation is
    p/100; its column c is for bouts fenced to c+1 points. The rows are
    looked up through a tree of small functions, so that each of them
    proves the bounds of its own rows. */
module Table {

  /** Fifteen entries, each between 0 and 1. */
  predicate InUnitRange(r: seq<real>) {
    |r| == 15 && 0.0 <= r[0] <= 1.0 && 0.0 <= r[1] <= 1.0 && 0.0 <= r[2] <= 1.0
      && 0.0 <= r[3] <= 1.0 && 0.0 <= r[4] <= 1.0 && 0.0 <= r[5] <= 1.0
      && 0.0 <= r[6] <= 1.0 && 0.0 <= r[7] <= 1.0 && 0.0 <= r[8] <= 1.0
      && 0.0 <= r[9] <= 1.0 && 0.0 <= r[10] <= 1.0 && 0.0 <= r[11] <= 1.0
      && 0.0 <= r[12] <= 1.0 && 0.0 <= r[13] <= 1.0 && 0.0 <= r[14] <= 1.0
  }

  function RowsFrom0To5(p: nat): (r: seq<real>)
    requires 0 <= p <= 5
    ensures InUnitRange(r) && r[0] == p as real / 100.0
  {
    if p <= 2 then
      if p <= 1 then
        if p <= 0 then
          [0.0, 0.0, 0.0, 0.0, 0.0, 0.0, 0.0, 0.0,
           0.0, 0.0, 0.0, 0.0, 0.0, 0.0, 0.0]
        else
          [0.01, 0.006766, 0.00751687, 0.00801342, 0.00834527, 0.00858217, 0.00875974, 0.00889779,
           0.0090082, 0.0090985, 0.00917373, 0.00923737, 0.00929191, 0.00933917, 0.00938052]
      else
        [0.02, 0.013728, 0.0150747, 0.0160544, 0.0167146, 0.0171859, 0.017539, 0.0178135,
         0.0180328, 0.0182122, 0.0183616, 0.018488, 0.0185963, 0.0186901, 0.0187721]
    else
      if p <= 4 then
        if p <= 3 then
          [0.03, 0.020882, 0.0226839, 0.0241246, 0.0251083, 0.0258114, 0.026338, 0.0267471,
           0.027074, 0.0273412, 0.0275637, 0.0277519, 0.0279131, 0.0280527, 0.0281748]
        else
          [0.04, 0.028224, 0.030354, 0.0322269, 0.033527, 0.0344588, 0.0351568, 0.0356988,
           0.0361318, 0.0364856, 0.0367801, 0.0370291, 0.0372424, 0.0374271, 0.0375886]
      else
        [0.05, 0.03575, 0.0380941, 0.0403646, 0.0419717, 0.0431285, 0.0439956, 0.0446687,
         0.0452063, 0.0456454, 0.0460109, 0.0463198, 0.0465843, 0.0468134, 0.0470136]
  }

  function RowsFrom6To11(p: nat): (r: seq<real>)
    requires 6 <= p <= 11
    ensures InUnitRange(r) && r[0] == p as real / 100.0
  {
    if p <= 8 then
      if p <= 7 then
        if p <= 6 then
          [0.06, 0.043456, 0.0459125, 0.0485417, 0.0504437, 0.051821, 0.0528545, 0.0536569,
           0.0542975, 0.0548207, 0.055256, 0.0556239, 0.0559388, 0.0562115, 0.0564499]
        else
          [0.07, 0.051338, 0.0538167, 0.056763, 0.0589451, 0.0605369, 0.0617339, 0.0626636,
           0.0634057, 0.0640116, 0.0645157, 0.0649415, 0.065306, 0.0656215, 0.0658973]
      else
        [0.08, 0.059392, 0.0618139, 0.0650333, 0.067478, 0.0692772, 0.0706342, 0.0716889,
         0.0725309, 0.0732182, 0.0737899, 0.0742727, 0.0746859, 0.0750436, 0.0753561]
    else
      if p <= 10 then
        if p <= 9 then
          [0.09, 0.067614, 0.0699104, 0.0733581, 0.0760453, 0.0780432, 0.0795558, 0.0807331,
           0.0816732, 0.0824406, 0.0830787, 0.0836175, 0.0840786, 0.0844776, 0.0848262]
        else
          [0.1, 0.076, 0.078112, 0.0817429, 0.0846504, 0.0868365, 0.0884997, 0.0897966,
           0.0908328, 0.0916788, 0.0923821, 0.092976, 0.0934841, 0.0939236, 0.0943077]
      else
        [0.11, 0.084546, 0.086424, 0.0901933, 0.0932969, 0.0956593, 0.0974669, 0.0988799,
         0.10001, 0.100933, 0.1017, 0.102348, 0.102902, 0.103382, 0.103801]
  }

  function RowsFrom12To17(p: nat): (r: seq<real>)
    requires 12 <= p <= 17
    ensures InUnitRange(r) && r[0] == p as real / 100.0
  {
    if p <= 14 then
      if p <= 13 then
        if p <= 12 then
          [0.12, 0.093248, 0.094851, 0.0987153, 0.101989, 0.104514, 0.106459, 0.107984,
           0.109205, 0.110204, 0.111034, 0.111734, 0.112334, 0.112852, 0.113305]
        else
          [0.13, 0.102102, 0.103397, 0.107314, 0.110731, 0.113404, 0.115477, 0.117109,
           0.118419, 0.119491, 0.120382, 0.121134, 0.121778, 0.122335, 0.122821]
      else
        [0.14, 0.111104, 0.112066, 0.115996, 0.119529, 0.122332, 0.124524, 0.126257,
         0.127652, 0.128795, 0.129746, 0.130549, 0.131235, 0.131829, 0.132348]
    else
      if p <= 16 then
        if p <= 15 then
          [0.15, 0.12025, 0.12086, 0.124767, 0.128387, 0.131302, 0.133602, 0.13543,
           0.136906, 0.138116, 0.139125, 0.139977, 0.140706, 0.141337, 0.141887]
        else
          [0.16, 0.129536, 0.129782, 0.133631, 0.13731, 0.140318, 0.142714, 0.144629,
           0.146181, 0.147456, 0.14852, 0.14942, 0.15019, 0.150856, 0.151438]
      else
        [0.17, 0.138958, 0.138834, 0.142594, 0.146304, 0.149385, 0.151863, 0.153857,
         0.155479, 0.156816, 0.157933, 0.158878, 0.159688, 0.160389, 0.161]
  }

  function RowsFrom18To23(p: nat): (r: seq<real>)
    requires 18 <= p <= 23
    ensures InUnitRange(r) && r[0] == p as real / 100.0
  {
    if p <= 20 then
      if p <= 19 then
        if p <= 18 then
          [0.18, 0.148512, 0.148018, 0.151661, 0.155374, 0.158509, 0.161055, 0.163117,
           0.164803, 0.166196, 0.167363, 0.168352, 0.1692, 0.169934, 0.170575]
        else
          [0.19, 0.158194, 0.157335, 0.160835, 0.164527, 0.167693, 0.170292, 0.172413,
           0.174154, 0.1756, 0.176813, 0.177843, 0.178727, 0.179493, 0.180162]
      else
        [0.2, 0.168, 0.166784, 0.170121, 0.173767, 0.176944, 0.17958, 0.181747,
         0.183537, 0.185028, 0.186284, 0.187352, 0.188269, 0.189065, 0.189761]
    else
      if p <= 22 then
        if p <= 21 then
          [0.21, 0.177926, 0.176367, 0.179523, 0.183099, 0.186268, 0.188924, 0.191125,
           0.192954, 0.194484, 0.195777, 0.19688, 0.197829, 0.198653, 0.199374]
        else
          [0.22, 0.187968, 0.186082, 0.189043, 0.192529, 0.195669, 0.198329, 0.200552,
           0.202409, 0.203972, 0.205296, 0.206429, 0.207406, 0.208256, 0.209001]
      else
        [0.23, 0.198122, 0.195929, 0.198684, 0.202062, 0.205153, 0.207802, 0.210032,
         0.211908, 0.213494, 0.214844, 0.216002, 0.217004, 0.217877, 0.218644]
  }

  function RowsFrom24To29(p: nat): (r: seq<real>)
    requires 24 <= p <= 29
    ensures InUnitRange(r) && r[0] == p as real / 100.0
  {
    if p <= 26 then
      if p <= 25 then
        if p <= 24 then
          [0.24, 0.208384, 0.205908, 0.208449, 0.2117, 0.214726, 0.217347, 0.219571,
           0.221455, 0.223056, 0.224424, 0.225603, 0.226625, 0.227518, 0.228304]
        else
          [0.25, 0.21875, 0.216016, 0.218338, 0.22145, 0.224394, 0.22697, 0.229176,
           0.231056, 0.232662, 0.234042, 0.235234, 0.236272, 0.237181, 0.237983]
      else
        [0.26, 0.229216, 0.226251, 0.228354, 0.231313, 0.23416, 0.236678, 0.238852,
         0.240716, 0.242318, 0.243701, 0.244901, 0.245949, 0.24687, 0.247683]
    else
      if p <= 28 then
        if p <= 27 then
          [0.27, 0.239778, 0.236611, 0.238496, 0.241293, 0.24403, 0.246476, 0.248604,
           0.250442, 0.25203, 0.253407, 0.254608, 0.25566, 0.256587, 0.257409]
        else
          [0.28, 0.250432, 0.247094, 0.248764, 0.251393, 0.254008, 0.25637, 0.25844,
           0.26024, 0.261804, 0.263167, 0.264361, 0.265411, 0.266339, 0.267165]
      else
        [0.29, 0.261174, 0.257697, 0.259158, 0.261613, 0.264097, 0.266364, 0.268365,
         0.270117, 0.271647, 0.272987, 0.274165, 0.275207, 0.276131, 0.276955]
  }

  function RowsFrom30To35(p: nat): (r: seq<real>)
    requires 30 <= p <= 35
    ensures InUnitRange(r) && r[0] == p as real / 100.0
  {
    if p <= 32 then
      if p <= 31 then
        if p <= 30 then
          [0.3, 0.272, 0.268416, 0.269676, 0.271955, 0.274301, 0.276462, 0.278385,
           0.280078, 0.281564, 0.282873, 0.284029, 0.285054, 0.285968, 0.286785]
        else
          [0.31, 0.282906, 0.279248, 0.280317, 0.28242, 0.284622, 0.28667, 0.288505,
           0.290129, 0.291564, 0.292833, 0.293958, 0.294961, 0.295857, 0.296662]
      else
        [0.32, 0.293888, 0.290188, 0.291079, 0.293006, 0.295061, 0.296989, 0.298729,
         0.300277, 0.301652, 0.302873, 0.30396, 0.304933, 0.305806, 0.306592]
    else
      if p <= 34 then
        if p <= 33 then
          [0.33, 0.304942, 0.301234, 0.301959, 0.303714, 0.305619, 0.307423, 0.309061,
           0.310527, 0.311834, 0.313, 0.314042, 0.314978, 0.315821, 0.316584]
        else
          [0.34, 0.316064, 0.31238, 0.312953, 0.314541, 0.316296, 0.317973, 0.319505,
           0.320882, 0.322115, 0.32322, 0.324211, 0.325104, 0.325912, 0.326644]
      else
        [0.35, 0.32725, 0.323621, 0.324058, 0.325485, 0.327092, 0.32864, 0.330062,
         0.331346, 0.3325, 0.333538, 0.334473, 0.335318, 0.336084, 0.336782]
  }

  function RowsFrom36To41(p: nat): (r: seq<real>)
    requires 36 <= p <= 41
    ensures InUnitRange(r) && r[0] == p as real / 100.0
  {
    if p <= 38 then
      if p <= 37 then
        if p <= 36 then
          [0.36, 0.338496, 0.334954, 0.335269, 0.336542, 0.338004, 0.339423, 0.340733,
           0.341921, 0.342994, 0.34396, 0.344834, 0.345626, 0.346346, 0.347003]
        else
          [0.37, 0.349798, 0.346372, 0.346582, 0.34771, 0.349029, 0.350321, 0.351519,
           0.35261, 0.353597, 0.35449, 0.355298, 0.356033, 0.356704, 0.357317]
      else
        [0.38, 0.361152, 0.357871, 0.357991, 0.358982, 0.360165, 0.361332, 0.362419,
         0.363411, 0.364312, 0.365128, 0.36587, 0.366545, 0.367162, 0.367728]
    else
      if p <= 40 then
        if p <= 39 then
          [0.39, 0.372554, 0.369445, 0.36949, 0.370355, 0.371407, 0.372452, 0.373429,
           0.374324, 0.375138, 0.375877, 0.37655, 0.377163, 0.377725, 0.378241]
        else
          [0.4, 0.384, 0.381088, 0.381074, 0.381822, 0.382749, 0.383677, 0.384547,
           0.385346, 0.386074, 0.386736, 0.387339, 0.38789, 0.388396, 0.388861]
      else
        [0.41, 0.395486, 0.392795, 0.392736, 0.393376, 0.394186, 0.395, 0.395767,
         0.396472, 0.397116, 0.397702, 0.398236, 0.398725, 0.399174, 0.399587]
  }

  function RowsFrom42To47(p: nat): (r: seq<real>)
    requires 42 <= p <= 47
    ensures InUnitRange(r) && r[0] == p as real / 100.0
  {
    if p <= 44 then
      if p <= 43 then
        if p <= 42 then
          [0.42, 0.407008, 0.404559, 0.40447, 0.405011, 0.40571, 0.406416, 0.407084,
           0.407698, 0.408259, 0.408771, 0.409238, 0.409665, 0.410057, 0.410419]
        else
          [0.43, 0.418562, 0.416375, 0.416268, 0.41672, 0.417313, 0.417918, 0.418489,
           0.419016, 0.419498, 0.419937, 0.420339, 0.420706, 0.421043, 0.421354]
      else
        [0.44, 0.430144, 0.428237, 0.428122, 0.428493, 0.428988, 0.429495, 0.429975,
         0.430419, 0.430824, 0.431194, 0.431531, 0.43184, 0.432124, 0.432386]
    else
      if p <= 46 then
        if p <= 45 then
          [0.45, 0.44175, 0.440137, 0.440026, 0.440322, 0.440726, 0.44114, 0.441533,
           0.441896, 0.442228, 0.442531, 0.442807, 0.44306, 0.443292, 0.443506]
        else
          [0.46, 0.453376, 0.45207, 0.45197, 0.4522, 0.452516, 0.452842, 0.453151,
           0.453437, 0.453699, 0.453937, 0.454155, 0.454354, 0.454536, 0.454705]
      else
        [0.47, 0.465018, 0.46403, 0.463949, 0.464116, 0.464349, 0.46459, 0.464819,
         0.465031, 0.465224, 0.465401, 0.465562, 0.465709, 0.465844, 0.465969]
  }

  function RowsFrom48To53(p: nat): (r: seq<real>)
    requires 48 <= p <= 53
    ensures InUnitRange(r) && r[0] == p as real / 100.0
  {
    if p <= 50 then
      if p <= 49 then
        if p <= 48 then
          [0.48, 0.476672, 0.476009, 0.475952, 0.476061, 0.476214, 0.476373, 0.476525,
           0.476665, 0.476792, 0.476909, 0.477015, 0.477112, 0.477201, 0.477283]
        else
          [0.49, 0.488334, 0.488001, 0.487972, 0.488026, 0.488102, 0.488181, 0.488256,
           0.488325, 0.488389, 0.488447, 0.4885, 0.488548, 0.488592, 0.488633]
      else
        [0.5, 0.5, 0.5, 0.5, 0.5, 0.5, 0.5, 0.5,
         0.5, 0.5, 0.5, 0.5, 0.5, 0.5, 0.5]
    else
      if p <= 52 then
        if p <= 51 then
          [0.51, 0.511666, 0.511999, 0.512028, 0.511974, 0.511898, 0.511819, 0.511744,
           0.511675, 0.511611, 0.511553, 0.5115, 0.511452, 0.511408, 0.511367]
        else
          [0.52, 0.523328, 0.523991, 0.524048, 0.523939, 0.523786, 0.523627, 0.523475,
           0.523335, 0.523208, 0.523091, 0.522985, 0.522888, 0.522799, 0.522717]
      else
        [0.53, 0.534982, 0.53597, 0.536051, 0.535884, 0.535651, 0.53541, 0.535181,
         0.534969, 0.534776, 0.534599, 0.534438, 0.534291, 0.534156, 0.534031]
  }

  function RowsFrom54To59(p: nat): (r: seq<real>)
    requires 54 <= p <= 59
    ensures InUnitRange(r) && r[0] == p as real / 100.0
  {
    if p <= 56 then
      if p <= 55 then
        if p <= 54 then
          [0.54, 0.546624, 0.54793, 0.54803, 0.5478, 0.547484, 0.547158, 0.546849,
           0.546563, 0.546301, 0.546063, 0.545845, 0.545646, 0.545464, 0.545295]
        else
          [0.55, 0.55825, 0.559863, 0.559974, 0.559678, 0.559274, 0.55886, 0.558467,
           0.558104, 0.557772, 0.557469, 0.557193, 0.55694, 0.556708, 0.556494]
      else
        [0.56, 0.569856, 0.571763, 0.571878, 0.571507, 0.571012, 0.570505, 0.570025,
         0.569581, 0.569176, 0.568806, 0.568469, 0.56816, 0.567876, 0.567614]
    else
      if p <= 58 then
        if p <= 57 then
          [0.57, 0.581438, 0.583625, 0.583732, 0.58328, 0.582687, 0.582082, 0.581511,
           0.580984, 0.580502, 0.580063, 0.579661, 0.579294, 0.578957, 0.578646]
        else
          [0.58, 0.592992, 0.595441, 0.59553, 0.594989, 0.59429, 0.593584, 0.592916,
           0.592302, 0.591741, 0.591229, 0.590762, 0.590335, 0.589943, 0.589581]
      else
        [0.59, 0.604514, 0.607205, 0.607264, 0.606624, 0.605814, 0.605, 0.604233,
         0.603528, 0.602884, 0.602298, 0.601764, 0.601275, 0.600826, 0.600413]
  }

  function RowsFrom60To65(p: nat): (r: seq<real>)
    requires 60 <= p <= 65
    ensures InUnitRange(r) && r[0] == p as real / 100.0
  {
    if p <= 62 then
      if p <= 61 then
        if p <= 60 then
          [0.6, 0.616, 0.618912, 0.618926, 0.618178, 0.617251, 0.616323, 0.615453,
           0.614654, 0.613926, 0.613264, 0.612661, 0.61211, 0.611604, 0.611139]
        else
          [0.61, 0.627446, 0.630555, 0.63051, 0.629645, 0.628593, 0.627548, 0.626571,
           0.625676, 0.624862, 0.624123, 0.62345, 0.622837, 0.622275, 0.621759]
      else
        [0.62, 0.638848, 0.642129, 0.642009, 0.641018, 0.639835, 0.638668, 0.637581,
         0.636589, 0.635688, 0.634872, 0.63413, 0.633455, 0.632838, 0.632272]
    else
      if p <= 64 then
        if p <= 63 then
          [0.63, 0.650202, 0.653628, 0.653418, 0.65229, 0.650971, 0.649679, 0.648481,
           0.64739, 0.646403, 0.64551, 0.644702, 0.643967, 0.643296, 0.642683]
        else
          [0.64, 0.661504, 0.665046, 0.664731, 0.663458, 0.661996, 0.660577, 0.659267,
           0.658079, 0.657006, 0.65604, 0.655166, 0.654374, 0.653654, 0.652997]
      else
        [0.65, 0.67275, 0.676379, 0.675942, 0.674515, 0.672908, 0.67136, 0.669938,
         0.668654, 0.6675, 0.666462, 0.665527, 0.664682, 0.663916, 0.663218]
  }

  function RowsFrom66To71(p: nat): (r: seq<real>)
    requires 66 <= p <= 71
    ensures InUnitRange(r) && r[0] == p as real / 100.0
  {
    if p <= 68 then
      if p <= 67 then
        if p <= 66 then
          [0.66, 0.683936, 0.68762, 0.687047, 0.685459, 0.683704, 0.682027, 0.680495,
           0.679118, 0.677885, 0.67678, 0.675789, 0.674896, 0.674088, 0.673356]
        else
          [0.67, 0.695058, 0.698766, 0.698041, 0.696286, 0.694381, 0.692577, 0.690939,
           0.689473, 0.688166, 0.687, 0.685958, 0.685022, 0.684179, 0.683416]
      else
        [0.68, 0.706112, 0.709812, 0.708921, 0.706994, 0.704939, 0.703011, 0.701271,
         0.699723, 0.698348, 0.697127, 0.69604, 0.695067, 0.694194, 0.693408]
    else
      if p <= 70 then
        if p <= 69 then
          [0.69, 0.717094, 0.720752, 0.719683, 0.71758, 0.715378, 0.71333, 0.711495,
           0.709871, 0.708436, 0.707167, 0.706042, 0.705039, 0.704143, 0.703338]
        else
          [0.7, 0.728, 0.731584, 0.730324, 0.728045, 0.725699, 0.723538, 0.721615,
           0.719922, 0.718436, 0.717127, 0.715971, 0.714946, 0.714032, 0.713215]
      else
        [0.71, 0.738826, 0.742303, 0.740842, 0.738387, 0.735903, 0.733636, 0.731635,
         0.729883, 0.728353, 0.727013, 0.725835, 0.724793, 0.723869, 0.723045]
  }

  function RowsFrom72To77(p: nat): (r: seq<real>)
    requires 72 <= p <= 77
    ensures InUnitRange(r) && r[0] == p as real / 100.0
  {
    if p <= 74 then
      if p <= 73 then
        if p <= 72 then
          [0.72, 0.749568, 0.752906, 0.751236, 0.748607, 0.745992, 0.74363, 0.74156,
           0.73976, 0.738196, 0.736833, 0.735639, 0.734589, 0.733661, 0.732835]
        else
          [0.73, 0.760222, 0.763389, 0.761504, 0.758707, 0.75597, 0.753524, 0.751396,
           0.749558, 0.74797, 0.746593, 0.745392, 0.74434, 0.743413, 0.742591]
      else
        [0.74, 0.770784, 0.773749, 0.771646, 0.768687, 0.76584, 0.763322, 0.761148,
         0.759284, 0.757682, 0.756299, 0.755099, 0.754051, 0.75313, 0.752317]
    else
      if p <= 76 then
        if p <= 75 then
          [0.75, 0.78125, 0.783984, 0.781662, 0.77855, 0.775606, 0.77303, 0.770824,
           0.768944, 0.767338, 0.765958, 0.764766, 0.763728, 0.762819, 0.762017]
        else
          [0.76, 0.791616, 0.794092, 0.791551, 0.7883, 0.785274, 0.782653, 0.780429,
           0.778545, 0.776944, 0.775576, 0.774397, 0.773375, 0.772482, 0.771696]
      else
        [0.77, 0.801878, 0.804071, 0.801316, 0.797938, 0.794847, 0.792198, 0.789968,
         0.788092, 0.786506, 0.785156, 0.783998, 0.782996, 0.782123, 0.781356]
  }

  function RowsFrom78To83(p: nat): (r: seq<real>)
    requires 78 <= p <= 83
    ensures InUnitRange(r) && r[0] == p as real / 100.0
  {
    if p <= 80 then
      if p <= 79 then
        if p <= 78 then
          [0.78, 0.812032, 0.813918, 0.810957, 0.807471, 0.804331, 0.801671, 0.799448,
           0.797591, 0.796028, 0.794704, 0.793571, 0.792594, 0.791744, 0.790999]
        else
          [0.79, 0.822074, 0.823633, 0.820477, 0.816901, 0.813732, 0.811076, 0.808875,
           0.807046, 0.805516, 0.804223, 0.80312, 0.802171, 0.801347, 0.800626]
      else
        [0.8, 0.832, 0.833216, 0.829879, 0.826233, 0.823056, 0.82042, 0.818253,
         0.816463, 0.814972, 0.813716, 0.812648, 0.811731, 0.810935, 0.810239]
    else
      if p <= 82 then
        if p <= 81 then
          [0.81, 0.841806, 0.842665, 0.839165, 0.835473, 0.832307, 0.829708, 0.827587,
           0.825846, 0.8244, 0.823187, 0.822157, 0.821273, 0.820507, 0.819838]
        else
          [0.82, 0.851488, 0.851982, 0.848339, 0.844626, 0.841491, 0.838945, 0.836883,
           0.835197, 0.833804, 0.832637, 0.831648, 0.8308, 0.830066, 0.829425]
      else
        [0.83, 0.861042, 0.861166, 0.857406, 0.853696, 0.850615, 0.848137, 0.846143,
         0.844521, 0.843184, 0.842067, 0.841122, 0.840312, 0.839611, 0.839]
  }

  function RowsFrom84To89(p: nat): (r: seq<real>)
    requires 84 <= p <= 89
    ensures InUnitRange(r) && r[0] == p as real / 100.0
  {
    if p <= 86 then
      if p <= 85 then
        if p <= 84 then
          [0.84, 0.870464, 0.870218, 0.866369, 0.86269, 0.859682, 0.857286, 0.855371,
           0.853819, 0.852544, 0.85148, 0.85058, 0.84981, 0.849144, 0.848562]
        else
          [0.85, 0.87975, 0.87914, 0.875233, 0.871613, 0.868698, 0.866398, 0.86457,
           0.863094, 0.861884, 0.860875, 0.860023, 0.859294, 0.858663, 0.858113]
      else
        [0.86, 0.888896, 0.887934, 0.884004, 0.880471, 0.877668, 0.875476, 0.873743,
         0.872348, 0.871205, 0.870254, 0.869451, 0.868765, 0.868171, 0.867652]
    else
      if p <= 88 then
        if p <= 87 then
          [0.87, 0.897898, 0.896603, 0.892686, 0.889269, 0.886596, 0.884523, 0.882891,
           0.881581, 0.880509, 0.879618, 0.878866, 0.878222, 0.877665, 0.877179]
        else
          [0.88, 0.906752, 0.905149, 0.901285, 0.898011, 0.895486, 0.893541, 0.892016,
           0.890795, 0.889796, 0.888966, 0.888266, 0.887666, 0.887148, 0.886695]
      else
        [0.89, 0.915454, 0.913576, 0.909807, 0.906703, 0.904341, 0.902533, 0.90112,
         0.89999, 0.899067, 0.8983, 0.897652, 0.897098, 0.896618, 0.896199]
  }

  function RowsFrom90To95(p: nat): (r: seq<real>)
    requires 90 <= p <= 95
    ensures InUnitRange(r) && r[0] == p as real / 100.0
  {
    if p <= 92 then
      if p <= 91 then
        if p <= 90 then
          [0.9, 0.924, 0.921888, 0.918257, 0.91535, 0.913163, 0.9115, 0.910203,
           0.909167, 0.908321, 0.907618, 0.907024, 0.906516, 0.906076, 0.905692]
        else
          [0.91, 0.932386, 0.93009, 0.926642, 0.923955, 0.921957, 0.920444, 0.919267,
           0.918327, 0.917559, 0.916921, 0.916382, 0.915921, 0.915522, 0.915174]
      else
        [0.92, 0.940608, 0.938186, 0.934967, 0.932522, 0.930723, 0.929366, 0.928311,
         0.927469, 0.926782, 0.92621, 0.925727, 0.925314, 0.924956, 0.924644]
    else
      if p <= 94 then
        if p <= 93 then
          [0.93, 0.948662, 0.946183, 0.943237, 0.941055, 0.939463, 0.938266, 0.937336,
           0.936594, 0.935988, 0.935484, 0.935058, 0.934694, 0.934378, 0.934103]
        else
          [0.94, 0.956544, 0.954088, 0.951458, 0.949556, 0.948179, 0.947145, 0.946343,
           0.945702, 0.945179, 0.944744, 0.944376, 0.944061, 0.943789, 0.94355]
      else
        [0.95, 0.96425, 0.961906, 0.959635, 0.958028, 0.956871, 0.956004, 0.955331,
         0.954794, 0.954355, 0.953989, 0.95368, 0.953416, 0.953187, 0.952986]
  }

  function RowsFrom96To100(p: nat): (r: seq<real>)
    requires 96 <= p <= 100
    ensures InUnitRange(r) && r[0] == p as real / 100.0
  {
    if p <= 98 then
      if p <= 97 then
        if p <= 96 then
          [0.96, 0.971776, 0.969646, 0.967773, 0.966473, 0.965541, 0.964843, 0.964301,
           0.963868, 0.963514, 0.96322, 0.962971, 0.962758, 0.962573, 0.962411]
        else
          [0.97, 0.979118, 0.977316, 0.975875, 0.974892, 0.974189, 0.973662, 0.973253,
           0.972926, 0.972659, 0.972436, 0.972248, 0.972087, 0.971947, 0.971825]
      else
        [0.98, 0.986272, 0.984925, 0.983946, 0.983285, 0.982814, 0.982461, 0.982187,
         0.981967, 0.981788, 0.981638, 0.981512, 0.981404, 0.98131, 0.981228]
    else
      if p <= 99 then
        [0.99, 0.993234, 0.992483, 0.991987, 0.991655, 0.991418, 0.99124, 0.991102,
         0.990992, 0.990902, 0.990826, 0.990763, 0.990708, 0.990661, 0.990619]
      else
        [1.0, 1.0, 1.0, 1.0, 1.0, 1.0, 1.0, 1.0,
         1.0, 1.0, 1.0, 1.0, 1.0, 1.0, 1.0]
  }

  /** The lookup of row p, behind a few recursive steps so that the
      verifier does not expand the whole table wherever a row is used. */
  function RowAfter(p: nat, steps: nat): (r: seq<real>)
    requires p <= 100 && p <= steps
    ensures InUnitRange(r) && r[0] == p as real / 100.0
    decreases steps - p
  {
    if steps > p then RowAfter(p, steps - 1)
    else
      if p <= 53 then
        if p <= 29 then
          if p <= 17 then
            if p <= 11 then
              if p <= 5 then
                RowsFrom0To5(p)
              else
                RowsFrom6To11(p)
            else
              RowsFrom12To17(p)
          else
            if p <= 23 then
              RowsFrom18To23(p)
            else
              RowsFrom24To29(p)
        else
          if p <= 41 then
            if p <= 35 then
              RowsFrom30To35(p)
            else
              RowsFrom36To41(p)
          else
            if p <= 47 then
              RowsFrom42To47(p)
            else
              RowsFrom48To53(p)
      else
        if p <= 77 then
          if p <= 65 then
            if p <= 59 then
              RowsFrom54To59(p)
            else
              RowsFrom60To65(p)
          else
            if p <= 71 then
              RowsFrom66To71(p)
            else
              RowsFrom72To77(p)
        else
          if p <= 89 then
            if p <= 83 then
              RowsFrom78To83(p)
            else
              RowsFrom84To89(p)
          else
            if p <= 95 then
              RowsFrom90To95(p)
            else
              RowsFrom96To100(p)
  }

  /** Row p of the table: it starts with p/100, and every entry is a
      result value between 0 and 1. */
  function Row(p: nat): (r: seq<real>)
    requires p <= 100
    ensures InUnitRange(r) && r[0] == p as real / 100.0
  {
    RowAfter(p, p + 3)
  }

  lemma {:induction false} EntryInUnitRange(p: nat, c: nat)
    requires p <= 100 && c < 15
    ensures 0.0 <= Row(p)[c] <= 1.0
  {
    var r := Row(p);
    assert InUnitRange(r);
    if c < 5 {
      assert c == 0 || c == 1 || c == 2 || c == 3 || c == 4;
    } else if c < 10 {
      assert c == 5 || c == 6 || c == 7 || c == 8 || c == 9;
    } else {
      assert c == 10 || c == 11 || c == 12 || c == 13 || c == 14;
    }
  }

  /** Rows 0, 50 and 100 do not depend on the winning points: an even or a
      certain outcome needs no correction. */
  lemma ConstantRows()
    ensures forall c :: 0 <= c < 15 ==> Row(0)[c] == 0.0 && Row(50)[c] == 0.5 && Row(100)[c] == 1.0
  {
  }

  /** Python's reading of index `i` of a list of length `n`: a negative
      index counts from the end. */
  function PyIndex(n: nat, i: int): (k: nat)
    requires -(n as int) <= i < n
    ensures k < n && (k == i || k == n + i)
  {
    if i < 0 then n + i else i
  }

  /** The column `max_points - 1` (felo_rating.py:486-489); for a 0:0 relay
      bout it is index -1, i.e. the last column. */
  function Column(maxPoints: nat): (c: nat)
    requires maxPoints <= 15
    ensures c < 15
  {
    PyIndex(15, maxPoints - 1)
  }

  lemma ColumnOfScoreless()
    ensures Column(0) == 14
  {
  }

  predicate Between(r: real, a: real, b: real) {
    (a <= r <= b) || (b <= r <= a)
  }

  /** The corrected expectation of a single relay bout
      (felo_rating.py:476-489): linear interpolation between rows
      `int(e*100)` and `int(e*100)+1` of the column for the winning points.
      Both rows exist because the expectation is below 1, and the result
      lies between the two entries interpolated. */
  function CorrectedExpectation(e: real, maxPoints: nat): (r: real)
    requires 0.0 <= e < 1.0 && maxPoints <= 15
    ensures 0 <= (e * 100.0).Floor < 100
    ensures Between(r, Row((e * 100.0).Floor)[Column(maxPoints)], Row((e * 100.0).Floor + 1)[Column(maxPoints)])
    ensures 0.0 <= r <= 1.0
    ensures (e * 100.0).Floor as real == e * 100.0 ==> r == Row((e * 100.0).Floor)[Column(maxPoints)]
  {
    InterpolationAfter(e, maxPoints, maxPoints + 2)
  }

  /** The interpolation, behind a few recursive steps so that the verifier
      does not expand the table lookups wherever an expectation is used. */
  function InterpolationAfter(e: real, maxPoints: nat, steps: nat): (r: real)
    requires 0.0 <= e < 1.0 && maxPoints <= 15 && maxPoints <= steps
    ensures 0 <= (e * 100.0).Floor < 100
    ensures Between(r, Row((e * 100.0).Floor)[Column(maxPoints)], Row((e * 100.0).Floor + 1)[Column(maxPoints)])
    ensures 0.0 <= r <= 1.0
    ensures (e * 100.0).Floor as real == e * 100.0 ==> r == Row((e * 100.0).Floor)[Column(maxPoints)]
    decreases steps - maxPoints
  {
    if steps > maxPoints then InterpolationAfter(e, maxPoints, steps - 1)
    else
      var p := (e * 100.0).Floor;
      var c := Column(maxPoints);
      var low := Row(p)[c];
      var high := Row(p + 1)[c];
      var fraction := e * 100.0 - p as real;
      EntryInUnitRange(p, c);
      EntryInUnitRange(p + 1, c);
      InterpolationBetween(low, high, fraction);
      (high - low) * fraction + low
  }

  lemma InterpolationBetween(low: real, high: real, t: real)
    requires 0.0 <= t <= 1.0
    ensures Between((high - low) * t + low, low, high)
  {
    var d := high - low;
    assert d * (1.0 - t) == d - d * t;
    if d >= 0.0 {
      ProductNonNegative(d, t);
      ProductNonNegative(d, 1.0 - t);
    } else {
      ProductNonNegative(-d, t);
      ProductNonNegative(-d, 1.0 - t);
      assert (-d) * t == -(d * t) && (-d) * (1.0 - t) == -(d * (1.0 - t));
    }
  }

  lemma ProductNonNegative(a: real, b: real)
    requires 0.0 <= a && 0.0 <= b
    ensures 0.0 <= a * b
  {
  }

  /** At an expectation of exactly p/100 the correction is the table entry
      itself. */
  lemma {:induction false} CorrectedExpectationAtGrid(p: nat, maxPoints: nat)
    requires p < 100 && maxPoints <= 15
    ensures CorrectedExpectation(p as real / 100.0, maxPoints) == Row(p)[Column(maxPoints)]
  {
    var e := p as real / 100.0;
    assert e * 100.0 == p as real;
    assert (e * 100.0).Floor == p;
  }

  /** An even bout stays even: an expectation of 0.5 is not corrected,
      whatever the winning points. */
  lemma {:induction false} EvenBoutUncorrected(maxPoints: nat)
    requires maxPoints <= 15
    ensures CorrectedExpectation(0.5, maxPoints) == 0.5
  {
    CorrectedExpectationAtGrid(50, maxPoints);
    ConstantRows();
  }
}
